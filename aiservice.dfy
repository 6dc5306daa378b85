/**
 * The gateway-side service (lib/ai-service.ts): the system prompt chosen by
 * mode, the context-augmented prompt, the two model calls and the shaping of
 * the follow-up questions. The hosted model is a pair of function parameters:
 * one for the answer call, one for the follow-up call together with the
 * `JSON.parse` of its text.
 */
module AiService {

  import opened Wrappers
  import JsLookup

  /** One resolved turn of a conversation. */
  datatype Exchange = Exchange(question: string, answer: string)

  /** What the service is asked: the mode is any string the caller sent. */
  datatype AIRequest = AIRequest(question: string, mode: string, history: Option<seq<Exchange>>)

  datatype AIResponse = AIResponse(answer: string, followUpQuestions: seq<string>)

  /** What the answer call to the model gives back: its text, or the message of what it threw. */
  datatype AnswerOutcome = Text(text: string) | CallFailed(message: string)

  /**
   * What the follow-up step gets from the model call and `JSON.parse` of its
   * trimmed text: an array, any other JSON value, or a throw of either.
   */
  datatype ParseOutcome = ParsedArray(items: seq<string>) | ParsedOther | Failed

  /** A call made to the hosted model, with the prompts it was sent. */
  datatype ModelCall = AnswerCall(system: string, prompt: string) | FollowUpCall(prompt: string)

  /** The answer model: (system prompt, user prompt) to outcome. */
  type AnswerModel = (string, string) -> AnswerOutcome

  /** The follow-up model: prompt to parsed outcome. */
  type FollowUpModel = string -> ParseOutcome

  // ---------------------------------------------------------------------------
  // System prompts
  // ---------------------------------------------------------------------------

  const ReflectionPrompt := "You are a Socratic learning mentor. Guide students to discover answers through questions. Never give direct answers - ask probing questions that lead to understanding."
  const AnswerPrompt := "You are a teaching assistant. Provide direct answers but always explain the reasoning process step by step first."
  const LeetcodePrompt := "You are an algorithms teacher. Focus on understanding before coding. Explain the concept, approach, and complexity before showing any code."
  const LearningPlanPrompt := "You are an educational strategist. Create structured learning paths with clear steps, prerequisites, and practice exercises."

  /** The `prompts` object literal's own properties. */
  const Prompts: map<string, string> := map[
    "reflection" := ReflectionPrompt,
    "answer" := AnswerPrompt,
    "leetcode" := LeetcodePrompt,
    "learning-plan" := LearningPlanPrompt
  ]

  /**
   * `prompts[mode] || prompts.answer`, reading only the literal's own
   * properties: a mode without its own prompt gets the answer prompt.
   */
  function SystemPrompt(mode: string): (p: string)
    ensures p != ""
    ensures mode in Prompts ==> p == Prompts[mode]
    ensures mode !in Prompts ==> p == AnswerPrompt
  {
    if mode in Prompts && Prompts[mode] != "" then Prompts[mode] else Prompts["answer"]
  }

  /** The four modes have four different, non-empty system prompts. */
  lemma SystemPromptsDistinct()
    ensures Prompts.Keys == {"reflection", "answer", "leetcode", "learning-plan"}
    ensures SystemPrompt("reflection") == ReflectionPrompt && SystemPrompt("answer") == AnswerPrompt
    ensures SystemPrompt("leetcode") == LeetcodePrompt && SystemPrompt("learning-plan") == LearningPlanPrompt
    ensures ReflectionPrompt != "" && AnswerPrompt != "" && LeetcodePrompt != "" && LearningPlanPrompt != ""
    ensures ReflectionPrompt != AnswerPrompt && ReflectionPrompt != LeetcodePrompt && ReflectionPrompt != LearningPlanPrompt
    ensures AnswerPrompt != LeetcodePrompt && AnswerPrompt != LearningPlanPrompt && LeetcodePrompt != LearningPlanPrompt
  {
    // the four prompts have four different lengths
    assert |ReflectionPrompt| == 167 && |AnswerPrompt| == 113;
    assert |LeetcodePrompt| == 139 && |LearningPlanPrompt| == 124;
  }

  /** A mode outside the four gets exactly the answer prompt. */
  lemma UnknownModeGetsAnswerPrompt(mode: string)
    requires mode !in Prompts
    ensures SystemPrompt(mode) == SystemPrompt("answer")
  {
  }

  /**
   * `prompts[mode] || prompts.answer` as JavaScript evaluates it: an
   * inherited `Object.prototype` member is truthy, so it is returned in
   * place of the answer prompt.
   */
  function SystemPromptAsWritten(mode: string): (v: JsLookup.Lookup<string>)
    ensures v.OwnValue? || v.InheritedMember?
  {
    match JsLookup.Get(Prompts, mode)
    case OwnValue(s) => if s != "" then JsLookup.OwnValue(s) else JsLookup.OwnValue(Prompts["answer"])
    case InheritedMember(name) => JsLookup.InheritedMember(name)
    case Undefined => JsLookup.OwnValue(Prompts["answer"])
  }

  /** On every mode that is not an `Object.prototype` name, the code as written gives `SystemPrompt`. */
  lemma SystemPromptAsWrittenAgrees(mode: string)
    requires mode !in JsLookup.ObjectPrototypeMembers
    ensures SystemPromptAsWritten(mode) == JsLookup.OwnValue(SystemPrompt(mode))
  {
  }

  /** The mode "constructor" makes the code as written return `Object`'s constructor, not a prompt string. */
  lemma SystemPromptAsWrittenOnConstructor()
    ensures SystemPromptAsWritten("constructor") == JsLookup.InheritedMember("constructor")
    ensures SystemPrompt("constructor") == AnswerPrompt
  {
    assert "constructor" !in Prompts;
  }

  // ---------------------------------------------------------------------------
  // The context-augmented prompt
  // ---------------------------------------------------------------------------

  /** `history.slice(-2)`: the last two exchanges, or all of them when there are fewer. */
  function LastExchanges(history: seq<Exchange>): (w: seq<Exchange>)
    ensures |w| == if |history| < 2 then |history| else 2
    ensures w == history[|history| - |w|..]
  {
    if |history| <= 2 then history else history[|history| - 2..]
  }

  /** One exchange as a `Human:`/`AI:` block. */
  function Render(ex: Exchange): string
  {
    "Human: " + ex.question + "\nAI: " + ex.answer
  }

  /** `Array.prototype.join(sep)`. */
  function Join(parts: seq<string>, sep: string): (r: string)
    ensures |parts| == 0 ==> r == ""
    ensures |parts| == 1 ==> r == parts[0]
    ensures |parts| == 2 ==> r == parts[0] + sep + parts[1]
  {
    if |parts| == 0 then ""
    else if |parts| == 1 then parts[0]
    else parts[0] + sep + Join(parts[1..], sep)
  }

  /** Joining one more part puts the separator between the earlier result and it. */
  lemma {:induction false} JoinAppend(parts: seq<string>, p: string, sep: string)
    requires |parts| >= 1
    ensures Join(parts + [p], sep) == Join(parts, sep) + sep + p
  {
    var all := parts + [p];
    if |parts| > 1 {
      assert all[1..] == parts[1..] + [p];
      JoinAppend(parts[1..], p, sep);
    } else {
      assert all == [parts[0], p];
    }
  }

  /** The rendered blocks of the retained exchanges, joined by a blank line. */
  function Context(history: seq<Exchange>): string
  {
    var window := LastExchanges(history);
    Join(seq(|window|, i requires 0 <= i < |window| => Render(window[i])), "\n\n")
  }

  /**
   * The prompt sent with the answer call. Whatever the history, it ends with
   * the question itself.
   */
  function EffectivePrompt(question: string, history: Option<seq<Exchange>>): (p: string)
    ensures |question| <= |p| && p[|p| - |question|..] == question
  {
    if history.Some? && |history.value| > 0 then
      "Previous conversation:\n" + Context(history.value) + "\n\nCurrent question: " + question
    else
      question
  }

  /** Without a history, or with an empty one, the prompt is the raw question. */
  lemma PromptWithoutHistory(question: string, history: Option<seq<Exchange>>)
    requires history.None? || history.value == []
    ensures EffectivePrompt(question, history) == question
  {
  }

  /** A single earlier exchange is rendered alone before the question. */
  lemma PromptWithOneExchange(question: string, ex: Exchange)
    ensures EffectivePrompt(question, Some([ex])) ==
      "Previous conversation:\n" + ("Human: " + ex.question + "\nAI: " + ex.answer) +
      "\n\nCurrent question: " + question
  {
    var block := seq(1, i requires 0 <= i < 1 => Render([ex][i]));
    assert block == [Render(ex)];
    assert Context([ex]) == Render(ex);
  }

  /** The context of two or more exchanges is the last two blocks, joined by a blank line. */
  lemma ContextOfTwoOrMore(history: seq<Exchange>)
    requires |history| >= 2
    ensures Context(history) == Render(history[|history| - 2]) + "\n\n" + Render(history[|history| - 1])
  {
    var window := LastExchanges(history);
    var blocks := seq(|window|, i requires 0 <= i < |window| => Render(window[i]));
    assert blocks == [Render(history[|history| - 2]), Render(history[|history| - 1])];
    assert Join(blocks, "\n\n") == blocks[0] + "\n\n" + Join(blocks[1..], "\n\n");
  }

  /** With two or more earlier exchanges, exactly the last two appear, oldest first. */
  lemma PromptKeepsLastTwo(question: string, history: seq<Exchange>)
    requires |history| >= 2
    ensures EffectivePrompt(question, Some(history)) ==
      "Previous conversation:\n" +
      (("Human: " + history[|history| - 2].question + "\nAI: " + history[|history| - 2].answer) + "\n\n" +
       ("Human: " + history[|history| - 1].question + "\nAI: " + history[|history| - 1].answer)) +
      "\n\nCurrent question: " + question
  {
    ContextOfTwoOrMore(history);
  }

  /** Exchanges older than the last two have no effect on the prompt. */
  lemma PromptIgnoresOlderExchanges(question: string, older: seq<Exchange>, recent: seq<Exchange>)
    requires |recent| >= 2
    ensures EffectivePrompt(question, Some(older + recent)) == EffectivePrompt(question, Some(recent))
  {
    var all := older + recent;
    assert LastExchanges(all) == LastExchanges(recent) by {
      assert all[|all| - 2..] == recent[|recent| - 2..];
    }
  }

  // ---------------------------------------------------------------------------
  // Follow-up questions
  // ---------------------------------------------------------------------------

  const ReflectionDefaults := ["What assumptions are you making?", "How would you approach this differently?", "What patterns do you notice?"]
  const LeetcodeDefaults := ["Can you think of a more efficient approach?", "What edge cases should we consider?", "How would you explain this algorithm?"]
  const AnswerDefaults := ["How does this connect to what you know?", "What would happen if we changed something?", "Can you think of a real-world example?"]
  const LearningPlanDefaults := ["What's the most challenging part?", "How will you measure progress?", "What resources work best for you?"]

  /** The `defaults` object literal's own properties. */
  const Defaults: map<string, seq<string>> := map[
    "reflection" := ReflectionDefaults,
    "leetcode" := LeetcodeDefaults,
    "answer" := AnswerDefaults,
    "learning-plan" := LearningPlanDefaults
  ]

  /**
   * `defaults[mode] || defaults.answer`, reading only the literal's own
   * properties (an array is always truthy): three questions for every mode,
   * the answer list for a mode without its own.
   */
  function DefaultFollowUps(mode: string): (qs: seq<string>)
    ensures |qs| == 3
    ensures mode in Defaults ==> qs == Defaults[mode]
    ensures mode !in Defaults ==> qs == AnswerDefaults
  {
    if mode in Defaults then Defaults[mode] else Defaults["answer"]
  }

  /** `defaults[mode] || defaults.answer` as JavaScript evaluates it. */
  function DefaultFollowUpsAsWritten(mode: string): (v: JsLookup.Lookup<seq<string>>)
    ensures v.OwnValue? || v.InheritedMember?
  {
    match JsLookup.Get(Defaults, mode)
    case OwnValue(qs) => JsLookup.OwnValue(qs)
    case InheritedMember(name) => JsLookup.InheritedMember(name)
    case Undefined => JsLookup.OwnValue(Defaults["answer"])
  }

  /** On every mode that is not an `Object.prototype` name, the code as written gives `DefaultFollowUps`. */
  lemma DefaultFollowUpsAsWrittenAgrees(mode: string)
    requires mode !in JsLookup.ObjectPrototypeMembers
    ensures DefaultFollowUpsAsWritten(mode) == JsLookup.OwnValue(DefaultFollowUps(mode))
  {
  }

  /** The mode "toString" makes the code as written return a function in place of a list. */
  lemma DefaultFollowUpsAsWrittenOnToString()
    ensures DefaultFollowUpsAsWritten("toString") == JsLookup.InheritedMember("toString")
    ensures DefaultFollowUps("toString") == AnswerDefaults
  {
    assert "toString" !in Defaults;
  }

  /** The instruction sent with the follow-up call. */
  function FollowUpPrompt(question: string, mode: string): string
  {
    "Generate 3 follow-up questions for this " + mode + " conversation about: \"" + question +
    "\". Return only a JSON array of strings."
  }

  /**
   * The follow-up result: the first three elements of a parsed array, nothing
   * for any other parsed value, the mode's defaults when anything threw.
   */
  function ShapeFollowUps(mode: string, outcome: ParseOutcome): (qs: seq<string>)
    ensures |qs| <= 3
    ensures outcome.ParsedArray? ==>
      |qs| == (if |outcome.items| < 3 then |outcome.items| else 3) && qs == outcome.items[..|qs|]
    ensures outcome.ParsedOther? ==> qs == []
    ensures outcome.Failed? ==> qs == DefaultFollowUps(mode)
  {
    match outcome
    case ParsedArray(items) => if |items| <= 3 then items else items[..3]
    case ParsedOther => []
    case Failed => DefaultFollowUps(mode)
  }

  /** `generateFollowUpQuestions`: it never fails, whatever the model does. */
  function GenerateFollowUpQuestions(question: string, mode: string, followUpModel: FollowUpModel): (qs: seq<string>)
    ensures |qs| <= 3
  {
    ShapeFollowUps(mode, followUpModel(FollowUpPrompt(question, mode)))
  }

  // ---------------------------------------------------------------------------
  // processQuestion
  // ---------------------------------------------------------------------------

  /** What `processQuestion` resolves to, or the error it throws. */
  function ProcessQuestionSpec(request: AIRequest, answerModel: AnswerModel, followUpModel: FollowUpModel): Result<AIResponse>
  {
    match answerModel(SystemPrompt(request.mode), EffectivePrompt(request.question, request.history))
    case CallFailed(message) => Failure("AI processing failed: " + message)
    case Text(text) =>
      Success(AIResponse(text, GenerateFollowUpQuestions(request.question, request.mode, followUpModel)))
  }

  /** The model calls `processQuestion` makes, in order. */
  function ModelCallsSpec(request: AIRequest, answerModel: AnswerModel): seq<ModelCall>
  {
    var system, prompt := SystemPrompt(request.mode), EffectivePrompt(request.question, request.history);
    [AnswerCall(system, prompt)] +
    if answerModel(system, prompt).Text? then [FollowUpCall(FollowUpPrompt(request.question, request.mode))] else []
  }

  /**
   * `processQuestion`: picks the system prompt, builds the prompt, calls the
   * answer model, then the follow-up step; a failure of the answer call is
   * re-thrown with the prefix "AI processing failed: ". `calls` are the model
   * calls made.
   */
  method ProcessQuestion(request: AIRequest, answerModel: AnswerModel, followUpModel: FollowUpModel)
    returns (result: Result<AIResponse>, calls: seq<ModelCall>)
    ensures result == ProcessQuestionSpec(request, answerModel, followUpModel)
    ensures calls == ModelCallsSpec(request, answerModel)
  {
    var systemPrompt := SystemPrompt(request.mode);
    var prompt := request.question;
    if request.history.Some? && |request.history.value| > 0 {
      var context := Context(request.history.value);
      prompt := "Previous conversation:\n" + context + "\n\nCurrent question: " + request.question;
    }
    calls := [AnswerCall(systemPrompt, prompt)];
    var answer := answerModel(systemPrompt, prompt);
    match answer {
      case CallFailed(message) =>
        result := Failure("AI processing failed: " + message);
      case Text(text) =>
        var followUpPrompt := FollowUpPrompt(request.question, request.mode);
        calls := calls + [FollowUpCall(followUpPrompt)];
        var followUps := ShapeFollowUps(request.mode, followUpModel(followUpPrompt));
        result := Success(AIResponse(text, followUps));
    }
  }

  /**
   * The outcome of `processQuestion`, for every request and every model: it
   * fails exactly when the answer call fails, with the prefixed message; on
   * success the answer is the model's text and there are at most three
   * follow-ups.
   */
  lemma ProcessQuestionOutcome(request: AIRequest, answerModel: AnswerModel, followUpModel: FollowUpModel)
    ensures var answer := answerModel(SystemPrompt(request.mode), EffectivePrompt(request.question, request.history));
      var r := ProcessQuestionSpec(request, answerModel, followUpModel);
      (r.Failure? <==> answer.CallFailed?) &&
      (r.Failure? ==> r.message == "AI processing failed: " + answer.message) &&
      (r.Success? ==> r.value.answer == answer.text && |r.value.followUpQuestions| <= 3)
  {
  }

  /**
   * The follow-up step is an isolated fault domain: whatever two follow-up
   * models do, the request succeeds or fails alike and carries the same answer.
   */
  lemma FollowUpFailureIsolated(request: AIRequest, answerModel: AnswerModel, models: (FollowUpModel, FollowUpModel))
    ensures var r1, r2 := ProcessQuestionSpec(request, answerModel, models.0), ProcessQuestionSpec(request, answerModel, models.1);
      r1.Success? == r2.Success? && (r1.Success? ==> r1.value.answer == r2.value.answer) &&
      (r1.Failure? ==> r1 == r2)
  {
  }

  /**
   * A question in "answer" mode with no history is sent as is, under the
   * answer system prompt, and a failing follow-up step falls back to the
   * answer defaults.
   */
  lemma BinarySearchTreeScenario(answerModel: AnswerModel, followUpModel: FollowUpModel)
    ensures var q := "What is a binary search tree?";
      var request := AIRequest(q, "answer", None);
      var r := ProcessQuestionSpec(request, answerModel, followUpModel);
      ModelCallsSpec(request, answerModel)[0] == AnswerCall(AnswerPrompt, q) &&
      (r.Success? ==> |r.value.followUpQuestions| <= 3) &&
      (answerModel(AnswerPrompt, q).Text? && followUpModel(FollowUpPrompt(q, "answer")).Failed? ==>
        r == Success(AIResponse(answerModel(AnswerPrompt, q).text, AnswerDefaults)))
  {
  }
}
