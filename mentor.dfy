/**
 * The dashboard's mentor chat: the local fallback reply chosen by keywords
 * and progress, the choice among the backend's reply fields, and the
 * message list the panel appends to when the user sends a question.  The
 * network call itself is a parameter: its outcome is given, not fetched.
 */
module Mentor {
  import opened Text
  import opened Wrappers

  /**
   * The panel's properties.  An absent optional string is written "", which
   * JavaScript treats as falsy exactly like `undefined`.
   */
  datatype Context = Context(
    domain: string,
    currentSkill: string,
    completedSkills: seq<string>,
    progress: int,
    targetRole: string)

  /** `s || fallback` for a string. */
  function Or(s: string, fallback: string): string
  {
    if s != "" then s else fallback
  }

  /* ---------------------------------------------------------------------- */
  /* The keyword cascade of `getContextualResponse`                          */
  /* ---------------------------------------------------------------------- */

  datatype Topic = NextStep | Readiness | Explanation | General

  predicate AsksNext(lower: string) { Contains(lower, "next") || Contains(lower, "learn") }
  predicate AsksReadiness(lower: string) { Contains(lower, "ready") || Contains(lower, "job") }
  predicate AsksExplanation(lower: string) { Contains(lower, "explain") || Contains(lower, "what is") }

  /** Which branch the lower-cased message takes; earlier keyword pairs win. */
  function TopicOf(message: string): Topic
  {
    var lower := Lower(message);
    if AsksNext(lower) then NextStep
    else if AsksReadiness(lower) then Readiness
    else if AsksExplanation(lower) then Explanation
    else General
  }

  /** Keyword precedence: each branch is taken exactly when its keywords occur and no earlier pair's do. */
  lemma TopicPrecedence(message: string)
    ensures TopicOf(message) == NextStep <==> AsksNext(Lower(message))
    ensures TopicOf(message) == Readiness <==> !AsksNext(Lower(message)) && AsksReadiness(Lower(message))
    ensures TopicOf(message) == Explanation <==>
              !AsksNext(Lower(message)) && !AsksReadiness(Lower(message)) && AsksExplanation(Lower(message))
    ensures TopicOf(message) == General <==>
              !AsksNext(Lower(message)) && !AsksReadiness(Lower(message)) && !AsksExplanation(Lower(message))
  {
  }

  /** Keyword matching ignores case: lower-casing the message first changes nothing. */
  lemma TopicIgnoresCase(message: string)
    ensures TopicOf(Lower(message)) == TopicOf(message)
  {
    LowerIdempotent(message);
  }

  /** A message that asks what to learn next gets the next-step reply whatever else it mentions. */
  lemma NextWinsOverOtherKeywords(message: string, ctx: Context)
    requires Contains(Lower(message), "learn")
    ensures ContextualResponse(message, ctx) == NextStepReply(ctx)
  {
  }

  /* ---------------------------------------------------------------------- */
  /* The reply texts                                                         */
  /* ---------------------------------------------------------------------- */

  function NextStepReply(ctx: Context): string
  {
    if ctx.currentSkill != "" then
      "Focus on completing " + ctx.currentSkill + " first. It's fundamental for " + Or(ctx.targetRole, "your career")
        + ". Once done, the next skill will unlock automatically!"
    else
      "Start with the first skill in your roadmap - it builds the foundation for everything else."
  }

  /** The common opening of the two lower readiness bands. */
  function ReadyPrefix(ctx: Context): string
  {
    "You're" + " " + IntToString(ctx.progress) + "% ready"
  }

  function LowReadiness(ctx: Context): string
  {
    ReadyPrefix(ctx) + "." + " Keep going! Complete more skills to boost your readiness for " + Or(ctx.targetRole, "jobs") + "."
  }

  function MidReadiness(ctx: Context): string
  {
    ReadyPrefix(ctx) + " -" + " good progress! Focus on " + Or(ctx.currentSkill, "your current skill") + " to level up."
  }

  function HighReadiness(ctx: Context): string
  {
    "Great" + " progress! At " + IntToString(ctx.progress) + "%, you're almost job-ready for "
      + Or(ctx.targetRole, "your target role") + "!"
  }

  /** The readiness reply: three bands split at 30% and 70%. */
  function ReadinessReply(ctx: Context): string
  {
    if ctx.progress < 30 then LowReadiness(ctx)
    else if ctx.progress < 70 then MidReadiness(ctx)
    else HighReadiness(ctx)
  }

  /** The three readiness texts are pairwise different, so the reply tells which band the progress is in. */
  lemma ReadinessBands(ctx: Context)
    ensures ReadinessReply(ctx) == LowReadiness(ctx) <==> ctx.progress < 30
    ensures ReadinessReply(ctx) == MidReadiness(ctx) <==> 30 <= ctx.progress < 70
    ensures ReadinessReply(ctx) == HighReadiness(ctx) <==> ctx.progress >= 70
  {
    var p := ReadyPrefix(ctx);
    var low := LowReadiness(ctx);
    var mid := MidReadiness(ctx);
    var high := HighReadiness(ctx);
    assert low[|p|] == '.' && mid[|p|] == ' ';
    assert low[0] == 'Y' && mid[0] == 'Y' && high[0] == 'G';
  }

  function ExplanationReply(ctx: Context): string
  {
    if ctx.currentSkill != "" then
      ctx.currentSkill + " is essential for " + Or(ctx.targetRole, "your career")
        + ". Focus on understanding core concepts first, then practice with small projects."
    else
      "Select a skill from your roadmap and I'll help explain it in simple terms!"
  }

  /** `xs.slice(-2)`: the last two elements, or all of them when there are fewer. */
  function LastTwo(xs: seq<string>): (r: seq<string>)
  {
    if |xs| < 2 then xs else xs[|xs| - 2..]
  }

  /** The general reply mentions at most the two most recently completed skills, in their original order. */
  lemma LastTwoSuffix(xs: seq<string>)
    ensures |LastTwo(xs)| == if |xs| < 2 then |xs| else 2
    ensures LastTwo(xs) == xs[|xs| - |LastTwo(xs)|..]
    ensures LastTwo(xs) == [] <==> xs == []
  {
  }

  function GeneralReply(ctx: Context): string
  {
    "Based on your progress (" + IntToString(ctx.progress) + "% complete), I recommend focusing on "
      + Or(ctx.currentSkill, "your next skill") + ". "
      + (if |ctx.completedSkills| > 0 then
           "You've already mastered " + Join(LastTwo(ctx.completedSkills), " and ") + " - great work!"
         else
           "Every expert was once a beginner. Start today!")
  }

  /** `getContextualResponse`. */
  function ContextualResponse(message: string, ctx: Context): string
  {
    match TopicOf(message)
    case NextStep => NextStepReply(ctx)
    case Readiness => ReadinessReply(ctx)
    case Explanation => ExplanationReply(ctx)
    case General => GeneralReply(ctx)
  }

  /* ---------------------------------------------------------------------- */
  /* Choosing the assistant's text from the backend's answer                 */
  /* ---------------------------------------------------------------------- */

  /** The `data` field of the backend's JSON, as far as the panel looks at it. */
  datatype Data =
    | Absent                                        // missing, null, 0, false: a falsy non-string
    | Text(text: string)                            // a string ("" is falsy)
    | Object(answer: Option<string>, json: string)  // any other truthy value: its `answer` field
                                                    // (None when falsy) and `JSON.stringify(data)`

  /**
   * The backend's JSON reply.  `error` is None when the field is falsy, and
   * otherwise holds its rendering inside a template string.
   */
  datatype ChatReply = ChatReply(success: bool, data: Data, error: Option<string>)

  /** The body posted to the chat endpoint. */
  datatype ChatRequest = ChatRequest(domain: string, question: string)

  /** What the request produced: a parsed reply, or a thrown error (network or parse). */
  datatype FetchOutcome = Threw | Replied(reply: ChatReply)

  const ServiceUnavailable: string :=
    "Sorry, I'm having trouble reaching the AI service right now. Please try again later."

  predicate Truthy(d: Data)
  {
    match d
    case Absent => false
    case Text(t) => t != ""
    case Object(_, _) => true
  }

  /** The content cascade of `handleSend` after the request settles. */
  function ReplyContent(outcome: FetchOutcome, question: string, ctx: Context): string
  {
    match outcome
    case Threw => ServiceUnavailable
    case Replied(j) =>
      if j.success && Truthy(j.data) then
        match j.data
        case Object(answer, json) => if answer.Some? then answer.value else json
        case Text(t) => t
        case Absent => ""
      else if j.data.Text? && j.data.text != "" then
        j.data.text
      else if j.error.Some? then
        "Error: " + j.error.value
      else
        ContextualResponse(question, ctx)
  }

  /** The fixed precedence: answer, then string data, then error, then the local fallback. */
  lemma ReplyPrecedence(j: ChatReply, question: string, ctx: Context)
    ensures j.success && j.data.Object? && j.data.answer.Some? ==>
              ReplyContent(Replied(j), question, ctx) == j.data.answer.value
    ensures j.data.Text? && j.data.text != "" ==> ReplyContent(Replied(j), question, ctx) == j.data.text
    ensures !(j.success && Truthy(j.data)) && !(j.data.Text? && j.data.text != "") && j.error.Some? ==>
              ReplyContent(Replied(j), question, ctx) == "Error: " + j.error.value
    ensures !(j.success && Truthy(j.data)) && !(j.data.Text? && j.data.text != "") && j.error.None? ==>
              ReplyContent(Replied(j), question, ctx) == ContextualResponse(question, ctx)
  {
  }

  /** A successful reply with data never falls back to the local text or to an error message. */
  lemma SuccessNeverFallsBack(j: ChatReply, question: string, ctx: Context)
    requires j.success && Truthy(j.data)
    ensures ReplyContent(Replied(j), question, ctx) ==
              match j.data
              case Object(answer, json) => if answer.Some? then answer.value else json
              case Text(t) => t
              case Absent => ""
  {
  }

  /* ---------------------------------------------------------------------- */
  /* The panel's state                                                       */
  /* ---------------------------------------------------------------------- */

  datatype Role = User | Assistant

  /** A chat message; its time-based id is not modelled. */
  datatype Message = Message(role: Role, content: string)

  function Greeting(ctx: Context): string
  {
    "Hi there! \U{1F44B} I'm your AI career mentor for " + Or(ctx.targetRole, "your journey") + ". "
      + (if ctx.currentSkill != "" then "I see you're working on " + ctx.currentSkill + " - great choice!"
         else "Ready to start learning?")
      + " Ask me anything about your roadmap or career!"
  }

  class MentorChat {
    const ctx: Context
    var messages: seq<Message>
    var input: string
    var isTyping: bool

    constructor (ctx: Context)
      ensures this.ctx == ctx
      ensures messages == [Message(Assistant, Greeting(ctx))] && input == "" && !isTyping
    {
      this.ctx := ctx;
      messages := [Message(Assistant, Greeting(ctx))];
      input := "";
      isTyping := false;
    }

    /** Typing in the input box. */
    method SetInput(value: string)
      modifies this`input
      ensures input == value
    {
      input := value;
    }

    /**
     * The synchronous half of `handleSend`: a blank input is ignored;
     * otherwise the user's message is appended, the box is cleared and the
     * typing indicator shown.  `request` is what is posted to the backend.
     */
    method BeginSend() returns (sent: bool, request: ChatRequest)
      modifies this`messages, this`input, this`isTyping
      ensures sent <==> !IsBlank(old(input))
      ensures !sent ==> messages == old(messages) && input == old(input) && isTyping == old(isTyping)
      ensures sent ==> request == ChatRequest(Or(ctx.domain, "general"), old(input))
      ensures sent ==> messages == old(messages) + [Message(User, old(input))]
      ensures sent ==> input == "" && isTyping
    {
      TrimEmptyIffBlank(input);
      if Trim(input) == "" {
        sent, request := false, ChatRequest("", "");
        return;
      }
      request := ChatRequest(Or(ctx.domain, "general"), input);
      messages := messages + [Message(User, input)];
      input := "";
      isTyping := true;
      sent := true;
    }

    /** The asynchronous half: append the assistant's text and hide the typing indicator. */
    method FinishSend(question: string, outcome: FetchOutcome)
      modifies this`messages, this`isTyping
      ensures messages == old(messages) + [Message(Assistant, ReplyContent(outcome, question, ctx))]
      ensures !isTyping
    {
      messages := messages + [Message(Assistant, ReplyContent(outcome, question, ctx))];
      isTyping := false;
    }
  }
}
