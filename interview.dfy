/** The interview loop of `Simulator.simulate_conversation`
    (user_simulator/simulator.py:138-185) as a specification over a finite
    sequence of backend results, and what it guarantees: the dialogue
    alternates question and answer, blocks are taken strictly in order, one
    block per `finished` signal, and each agent sees the input the source
    gives it. The backend calls themselves are oracles: `Replies` holds the
    results one iteration may consume. */
module Interview {
  import opened Common
  import opened Context

  /** The researcher agent's structured output (`ResearcherOutput` in agents.py). */
  datatype ResearcherOutput = ResearcherOutput(nextQuestion: Option<string>, finished: bool)

  /** Which backend call of an iteration, if any, raises instead of
      returning; the source lets the exception propagate out of the loop. */
  datatype Raising = Returns | ResearcherRaises | RespondentRaises

  /** The backend results one loop iteration may consume: the researcher's
      final output (None when there is none), the respondent's final output,
      which is used only when the researcher asked a question, and which
      call raises. A raising call's output is never looked at. */
  datatype Replies = Replies(researcher: Option<ResearcherOutput>, respondent: Option<string>, raising: Raising)

  /** The opening input shown to the researcher while the dialogue is empty. */
  const Greeting := Message(User, "Hi")

  const NoQuestion := ValueError("No next question from market researcher")

  /** `agent_input`: the whole dialogue, or the greeting while it is empty. */
  function ResearcherInput(dialogue: seq<Message>): seq<Message>
  {
    if dialogue == [] then [Greeting] else dialogue
  }

  /** `user_dialogue`: the respondent sees only the last four turns. */
  function RespondentWindow(dialogue: seq<Message>): (window: seq<Message>)
    ensures |window| == if |dialogue| < 4 then |dialogue| else 4
    ensures window == dialogue[|dialogue| - |window|..]
  {
    if |dialogue| > 4 then dialogue[|dialogue| - 4..] else dialogue
  }

  /** The researcher output is present and says the block is finished. */
  predicate Finishes(output: Option<ResearcherOutput>)
  {
    output.Some? && output.value.finished
  }

  /** The researcher output is present and carries a non-empty question. */
  predicate AsksQuestion(output: Option<ResearcherOutput>)
  {
    output.Some? && output.value.nextQuestion.Some? && output.value.nextQuestion.value != ""
  }

  /** The researcher's final output as the loop sees it: none when the call raised. */
  function ResearcherResult(replies: Replies): Option<ResearcherOutput>
  {
    if replies.raising == ResearcherRaises then None else replies.researcher
  }

  /** `user_result.final_output or ""`. */
  function StoredAnswer(answer: Option<string>): string
  {
    if answer.Some? then answer.value else ""
  }

  /** `_next_block`: a lookup that never indexes outside the guide. */
  function NextBlock(blocks: seq<Block>, index: int): (r: Option<Block>)
    ensures r.Some? <==> 0 <= index < |blocks|
    ensures r.Some? ==> r.value == blocks[index]
  {
    if 0 <= index < |blocks| then Some(blocks[index]) else None
  }

  /** One researcher call as a trace records it: the input it was given,
      `block_index` and the context's discussion block at the time, and the
      output it returned. */
  datatype ResearcherCall = ResearcherCall(
    input: seq<Message>, blockIndex: nat, block: Block, output: Option<ResearcherOutput>)

  /** The loop's variables (`block_index`, `context.discussion_block`,
      `dialogue`) with the trace of backend calls made so far: every
      researcher call, and the input of every respondent call. */
  datatype Loop = Loop(
    blockIndex: nat,
    block: Block,
    dialogue: seq<Message>,
    researcherCalls: seq<ResearcherCall>,
    respondentInputs: seq<seq<Message>>)

  /** How the loop ends: the `break` after the last block, the ValueError or
      a backend exception, or (a limit of the model) no backend results left. */
  datatype Stop = GuideDone | Raised(error: Error) | OutOfReplies

  datatype Step = Continue(next: Loop) | Halt(stop: Stop, last: Loop)

  /** One pass through the body of `while True`. */
  function Iterate(blocks: seq<Block>, s: Loop, replies: Replies): Step
  {
    var output := ResearcherResult(replies);
    var call := ResearcherCall(ResearcherInput(s.dialogue), s.blockIndex, s.block, output);
    var asked := s.(researcherCalls := s.researcherCalls + [call]);
    if replies.raising == ResearcherRaises then
      Halt(Raised(BackendError), asked)
    else if Finishes(output) then
      var index := s.blockIndex + 1;
      match NextBlock(blocks, index)
      case None => Halt(GuideDone, asked.(blockIndex := index))
      case Some(next) => Continue(asked.(blockIndex := index, block := next))
    else if !AsksQuestion(output) then
      Halt(Raised(NoQuestion), asked)
    else if replies.raising == RespondentRaises then
      // The question already appended to the local dialogue is lost with it.
      Halt(Raised(BackendError), asked)
    else
      var withQuestion := s.dialogue + [Message(Assistant, output.value.nextQuestion.value)];
      Continue(asked.(
        dialogue := withQuestion + [Message(User, StoredAnswer(replies.respondent))],
        respondentInputs := s.respondentInputs + [RespondentWindow(withQuestion)]))
  }

  /** The loop run to its end over the supplied results; `rest` is what it did not consume. */
  datatype Run = Run(stop: Stop, last: Loop, rest: seq<Replies>)

  function Converse(blocks: seq<Block>, s: Loop, replies: seq<Replies>): Run
    decreases |replies|
  {
    if replies == [] then Run(OutOfReplies, s, [])
    else
      match Iterate(blocks, s, replies[0])
      case Continue(next) => Converse(blocks, next, replies[1..])
      case Halt(stop, last) => Run(stop, last, replies[1..])
  }

  /** What `simulate_conversation` makes of a run: the dialogue after the
      `break`, or the exception that ended the loop. */
  function Outcome(run: Run): (r: Result<seq<Message>>)
    ensures r.Success? <==> run.stop == GuideDone
    ensures r.Success? ==> r.value == run.last.dialogue
    ensures r.Failure? ==> r.error == if run.stop.Raised? then run.stop.error else RepliesExhausted
  {
    match run.stop
    case GuideDone => Success(run.last.dialogue)
    case Raised(e) => Failure(e)
    case OutOfReplies => Failure(RepliesExhausted)
  }

  /** The loop variables before the first iteration. */
  function Start(context: StudyContext): Loop
  {
    Loop(0, context.discussionBlock, [], [], [])
  }

  /** Questions (never empty) at even positions, answers at odd ones, and as
      many answers as questions. */
  predicate Alternates(dialogue: seq<Message>)
  {
    && |dialogue| % 2 == 0
    && forall i :: 0 <= i < |dialogue| ==>
         if i % 2 == 0 then dialogue[i].role == Assistant && dialogue[i].content != ""
         else dialogue[i].role == User
  }

  /** How many of the calls got a `finished` output. */
  function FinishedCount(calls: seq<ResearcherCall>): nat
  {
    if calls == [] then 0
    else FinishedCount(calls[..|calls| - 1]) + (if Finishes(calls[|calls| - 1].output) then 1 else 0)
  }

  /** The block the loop is in is a real block of the guide. */
  predicate InBlock(blocks: seq<Block>, s: Loop)
  {
    s.blockIndex < |blocks| && s.block == blocks[s.blockIndex]
  }

  /** The dialogue alternates, and the k-th respondent call was shown the
      last four turns of the dialogue up to and including the k-th question. */
  predicate Transcript(s: Loop)
  {
    && Alternates(s.dialogue)
    && |s.respondentInputs| * 2 == |s.dialogue|
    && forall k :: 0 <= k < |s.respondentInputs| ==>
         s.respondentInputs[k] == RespondentWindow(s.dialogue[..2 * k + 1])
  }

  /** The k-th researcher call was made in the block reached after the
      `finished` outputs before it, and was shown the greeting or a
      non-empty prefix of the dialogue. */
  predicate TracedCall(blocks: seq<Block>, calls: seq<ResearcherCall>, dialogue: seq<Message>, k: nat)
    requires k < |calls|
  {
    && calls[k].blockIndex == FinishedCount(calls[..k])
    && calls[k].blockIndex < |blocks|
    && calls[k].block == blocks[calls[k].blockIndex]
    && (calls[k].input == [Greeting] || (calls[k].input != [] && calls[k].input <= dialogue))
  }

  /** Every researcher call is traced. */
  predicate CallsTraced(blocks: seq<Block>, calls: seq<ResearcherCall>, dialogue: seq<Message>)
  {
    forall k: nat :: k < |calls| ==> TracedCall(blocks, calls, dialogue, k)
  }

  /** What the loop keeps true of its variables and its trace. */
  predicate Consistent(blocks: seq<Block>, s: Loop)
  {
    && Transcript(s)
    && CallsTraced(blocks, s.researcherCalls, s.dialogue)
    && s.blockIndex == FinishedCount(s.researcherCalls)
  }

  lemma StartConsistent(blocks: seq<Block>, context: StudyContext)
    requires blocks != [] && context.discussionBlock == blocks[0]
    ensures Consistent(blocks, Start(context)) && InBlock(blocks, Start(context))
  {
  }

  /** An iteration whose researcher output asks a question and is not
      `finished`: the respondent is shown the last four turns ending with
      the question, and the dialogue grows by exactly the question and the
      stored answer; the block does not change. */
  lemma IterateAsks(blocks: seq<Block>, s: Loop, replies: Replies) returns (next: Loop)
    requires replies.raising == Returns
    requires !Finishes(replies.researcher) && AsksQuestion(replies.researcher)
    ensures Iterate(blocks, s, replies) == Continue(next)
    ensures var question := Message(Assistant, replies.researcher.value.nextQuestion.value);
      && next.blockIndex == s.blockIndex && next.block == s.block
      && next.dialogue == s.dialogue + [question, Message(User, StoredAnswer(replies.respondent))]
      && next.respondentInputs == s.respondentInputs + [RespondentWindow(s.dialogue + [question])]
      && next.researcherCalls == s.researcherCalls
           + [ResearcherCall(ResearcherInput(s.dialogue), s.blockIndex, s.block, replies.researcher)]
  {
    next := Iterate(blocks, s, replies).next;
    var question := Message(Assistant, replies.researcher.value.nextQuestion.value);
    var answer := Message(User, StoredAnswer(replies.respondent));
    assert s.dialogue + [question] + [answer] == s.dialogue + [question, answer];
  }

  /** An iteration whose researcher output is `finished` in a block that is
      not the last moves to the next block of the guide and leaves the
      dialogue alone, even when the output also carries a question. */
  lemma IterateAdvances(blocks: seq<Block>, s: Loop, replies: Replies) returns (next: Loop)
    requires replies.raising != ResearcherRaises
    requires Finishes(replies.researcher) && s.blockIndex + 1 < |blocks|
    ensures Iterate(blocks, s, replies) == Continue(next)
    ensures && next.blockIndex == s.blockIndex + 1 && next.block == blocks[s.blockIndex + 1]
            && next.dialogue == s.dialogue && next.respondentInputs == s.respondentInputs
            && next.researcherCalls == s.researcherCalls
                 + [ResearcherCall(ResearcherInput(s.dialogue), s.blockIndex, s.block, replies.researcher)]
  {
    next := Iterate(blocks, s, replies).next;
  }

  /** An iteration whose researcher output is `finished` in the last block
      ends the loop normally, the dialogue unchanged. */
  lemma IterateEndsGuide(blocks: seq<Block>, s: Loop, replies: Replies) returns (last: Loop)
    requires replies.raising != ResearcherRaises
    requires Finishes(replies.researcher) && s.blockIndex + 1 >= |blocks|
    ensures Iterate(blocks, s, replies) == Halt(GuideDone, last)
    ensures && last.blockIndex == s.blockIndex + 1 && last.block == s.block
            && last.dialogue == s.dialogue && last.respondentInputs == s.respondentInputs
            && last.researcherCalls == s.researcherCalls
                 + [ResearcherCall(ResearcherInput(s.dialogue), s.blockIndex, s.block, replies.researcher)]
  {
    last := Iterate(blocks, s, replies).last;
  }

  /** An iteration whose researcher output is missing, or neither `finished`
      nor carrying a question, raises the ValueError with the dialogue as it was. */
  lemma IterateRaises(blocks: seq<Block>, s: Loop, replies: Replies) returns (last: Loop)
    requires replies.raising != ResearcherRaises
    requires !Finishes(replies.researcher) && !AsksQuestion(replies.researcher)
    ensures Iterate(blocks, s, replies) == Halt(Raised(NoQuestion), last)
    ensures && last.blockIndex == s.blockIndex && last.block == s.block
            && last.dialogue == s.dialogue && last.respondentInputs == s.respondentInputs
            && last.researcherCalls == s.researcherCalls
                 + [ResearcherCall(ResearcherInput(s.dialogue), s.blockIndex, s.block, replies.researcher)]
  {
    last := Iterate(blocks, s, replies).last;
  }

  /** An iteration whose researcher call raises, or whose respondent call
      raises after a question, ends the loop with the backend's exception
      and the dialogue as it was before the iteration; a raising researcher
      call is recorded with no output. */
  lemma IterateBackendRaises(blocks: seq<Block>, s: Loop, replies: Replies) returns (last: Loop)
    requires || replies.raising == ResearcherRaises
             || (replies.raising == RespondentRaises
                 && !Finishes(replies.researcher) && AsksQuestion(replies.researcher))
    ensures Iterate(blocks, s, replies) == Halt(Raised(BackendError), last)
    ensures && last.blockIndex == s.blockIndex && last.block == s.block
            && last.dialogue == s.dialogue && last.respondentInputs == s.respondentInputs
            && last.researcherCalls == s.researcherCalls
                 + [ResearcherCall(ResearcherInput(s.dialogue), s.blockIndex, s.block,
                                   if replies.raising == ResearcherRaises then None else replies.researcher)]
  {
    last := Iterate(blocks, s, replies).last;
  }

  /** The counting function grows by one call at a time. */
  lemma FinishedCountAppend(calls: seq<ResearcherCall>, call: ResearcherCall)
    ensures FinishedCount(calls + [call]) == FinishedCount(calls) + (if Finishes(call.output) then 1 else 0)
  {
    assert (calls + [call])[..|calls|] == calls;
  }

  lemma CallsTracedGrow(blocks: seq<Block>, calls: seq<ResearcherCall>, dialogue: seq<Message>, longer: seq<Message>)
    requires CallsTraced(blocks, calls, dialogue) && dialogue <= longer
    ensures CallsTraced(blocks, calls, longer)
  {
    forall k: nat | k < |calls| ensures TracedCall(blocks, calls, longer, k) {
      assert TracedCall(blocks, calls, dialogue, k);
    }
  }

  lemma CallsTracedAppend(blocks: seq<Block>, calls: seq<ResearcherCall>, dialogue: seq<Message>, call: ResearcherCall)
    requires CallsTraced(blocks, calls, dialogue)
    requires call.blockIndex == FinishedCount(calls) < |blocks| && call.block == blocks[call.blockIndex]
    requires call.input == [Greeting] || (call.input != [] && call.input <= dialogue)
    ensures CallsTraced(blocks, calls + [call], dialogue)
  {
    var all := calls + [call];
    assert all[..|calls|] == calls;
    forall k: nat | k < |all| ensures TracedCall(blocks, all, dialogue, k) {
      if k < |calls| {
        assert all[..k] == calls[..k] && all[k] == calls[k];
        assert TracedCall(blocks, calls, dialogue, k);
      }
    }
  }

  lemma AlternatesAppend(dialogue: seq<Message>, question: string, answer: string)
    requires Alternates(dialogue) && question != ""
    ensures Alternates(dialogue + [Message(Assistant, question), Message(User, answer)])
  {
    var d := dialogue + [Message(Assistant, question), Message(User, answer)];
    forall i | 0 <= i < |d|
      ensures if i % 2 == 0 then d[i].role == Assistant && d[i].content != "" else d[i].role == User
    {
      if i < |dialogue| { assert d[i] == dialogue[i]; }
    }
  }

  lemma WindowsAppend(dialogue: seq<Message>, inputs: seq<seq<Message>>, question: Message, answer: Message)
    requires |inputs| * 2 == |dialogue|
    requires forall k :: 0 <= k < |inputs| ==> inputs[k] == RespondentWindow(dialogue[..2 * k + 1])
    ensures var d := dialogue + [question, answer];
      var more := inputs + [RespondentWindow(dialogue + [question])];
      forall k :: 0 <= k < |more| ==> more[k] == RespondentWindow(d[..2 * k + 1])
  {
    var d := dialogue + [question, answer];
    var more := inputs + [RespondentWindow(dialogue + [question])];
    forall k | 0 <= k < |more| ensures more[k] == RespondentWindow(d[..2 * k + 1]) {
      if k < |inputs| {
        assert d[..2 * k + 1] == dialogue[..2 * k + 1];
      } else {
        assert d[..2 * k + 1] == dialogue + [question];
      }
    }
  }

  /** A question and its answer appended to a transcript keep it a transcript. */
  lemma TranscriptAppendExchange(s: Loop, t: Loop, question: Message, answer: Message)
    requires Transcript(s) && question.role == Assistant && question.content != "" && answer.role == User
    requires t.dialogue == s.dialogue + [question, answer]
    requires t.respondentInputs == s.respondentInputs + [RespondentWindow(s.dialogue + [question])]
    ensures Transcript(t)
  {
    AlternatesAppend(s.dialogue, question.content, answer.content);
    WindowsAppend(s.dialogue, s.respondentInputs, question, answer);
  }

  /** One iteration keeps the loop consistent. */
  lemma IterateKeepsConsistent(blocks: seq<Block>, s: Loop, replies: Replies)
    requires Consistent(blocks, s) && InBlock(blocks, s)
    ensures match Iterate(blocks, s, replies)
      case Continue(next) =>
        Consistent(blocks, next) && InBlock(blocks, next) && s.dialogue <= next.dialogue
      case Halt(stop, last) =>
        && Consistent(blocks, last) && last.dialogue == s.dialogue
        && (stop == GuideDone <==> last.blockIndex == |blocks|)
        && (stop != GuideDone ==> InBlock(blocks, last))
  {
    var r := replies.researcher;
    if replies.raising == ResearcherRaises || (replies.raising == RespondentRaises && !Finishes(r) && AsksQuestion(r)) {
      var last := IterateBackendRaises(blocks, s, replies);
      PassKeepsConsistent(blocks, s, last, if replies.raising == ResearcherRaises then None else r);
    } else if Finishes(r) && s.blockIndex + 1 >= |blocks| {
      var last := IterateEndsGuide(blocks, s, replies);
      PassKeepsConsistent(blocks, s, last, r);
    } else if Finishes(r) {
      var next := IterateAdvances(blocks, s, replies);
      PassKeepsConsistent(blocks, s, next, r);
    } else if !AsksQuestion(r) {
      var last := IterateRaises(blocks, s, replies);
      PassKeepsConsistent(blocks, s, last, r);
    } else {
      var next := IterateAsks(blocks, s, replies);
      AskKeepsConsistent(blocks, s, next, Message(Assistant, r.value.nextQuestion.value),
                         Message(User, StoredAnswer(replies.respondent)), r);
    }
  }

  /** A pass that records one researcher call and leaves the dialogue alone
      keeps the loop consistent; a `finished` output moves to the next block. */
  lemma PassKeepsConsistent(blocks: seq<Block>, s: Loop, t: Loop, output: Option<ResearcherOutput>)
    requires Consistent(blocks, s) && InBlock(blocks, s)
    requires t.blockIndex == s.blockIndex + (if Finishes(output) then 1 else 0)
    requires t.dialogue == s.dialogue && t.respondentInputs == s.respondentInputs
    requires t.researcherCalls == s.researcherCalls
               + [ResearcherCall(ResearcherInput(s.dialogue), s.blockIndex, s.block, output)]
    ensures Consistent(blocks, t)
  {
    var call := ResearcherCall(ResearcherInput(s.dialogue), s.blockIndex, s.block, output);
    FinishedCountAppend(s.researcherCalls, call);
    CallsTracedAppend(blocks, s.researcherCalls, s.dialogue, call);
    assert Transcript(t);
  }

  /** An exchange keeps the loop consistent. */
  lemma AskKeepsConsistent(blocks: seq<Block>, s: Loop, next: Loop, question: Message, answer: Message,
                           output: Option<ResearcherOutput>)
    requires Consistent(blocks, s) && InBlock(blocks, s)
    requires question.role == Assistant && question.content != "" && answer.role == User && !Finishes(output)
    requires next.blockIndex == s.blockIndex && next.block == s.block
    requires next.dialogue == s.dialogue + [question, answer]
    requires next.respondentInputs == s.respondentInputs + [RespondentWindow(s.dialogue + [question])]
    requires next.researcherCalls == s.researcherCalls
               + [ResearcherCall(ResearcherInput(s.dialogue), s.blockIndex, s.block, output)]
    ensures Consistent(blocks, next) && InBlock(blocks, next) && s.dialogue <= next.dialogue
  {
    TranscriptAppendExchange(s, next, question, answer);
    AskKeepsTrace(blocks, s.researcherCalls, s.dialogue, next.dialogue,
                  ResearcherCall(ResearcherInput(s.dialogue), s.blockIndex, s.block, output));
  }

  /** A call that did not finish its block, made in the block reached so
      far, keeps the calls traced as the dialogue grows. */
  lemma AskKeepsTrace(blocks: seq<Block>, calls: seq<ResearcherCall>, dialogue: seq<Message>,
                      longer: seq<Message>, call: ResearcherCall)
    requires CallsTraced(blocks, calls, dialogue) && dialogue <= longer && !Finishes(call.output)
    requires call.blockIndex == FinishedCount(calls) < |blocks| && call.block == blocks[call.blockIndex]
    requires call.input == ResearcherInput(dialogue)
    ensures CallsTraced(blocks, calls + [call], longer)
    ensures FinishedCount(calls + [call]) == call.blockIndex
  {
    FinishedCountAppend(calls, call);
    CallsTracedAppend(blocks, calls, dialogue, call);
    CallsTracedGrow(blocks, calls + [call], dialogue, longer);
  }

  /** The loop variables after an iteration, whether or not it halted. */
  function After(step: Step): Loop
  {
    match step
    case Continue(next) => next
    case Halt(_, last) => last
  }

  /** Every iteration makes exactly one researcher call, with the result it consumes. */
  lemma IterateCallsResearcher(blocks: seq<Block>, s: Loop, replies: Replies)
    ensures var calls := After(Iterate(blocks, s, replies)).researcherCalls;
      && |calls| == |s.researcherCalls| + 1
      && s.researcherCalls <= calls
      && calls[|s.researcherCalls|].output == ResearcherResult(replies)
      && calls[|s.researcherCalls|].input == ResearcherInput(s.dialogue)
  {
  }

  /** The loop consumes a prefix of the results, one researcher call per
      result, and stops early only by halting. */
  lemma {:induction false} ConverseUsesPrefix(blocks: seq<Block>, s: Loop, replies: seq<Replies>)
    ensures var run := Converse(blocks, s, replies);
      var used := |replies| - |run.rest|;
      && 0 <= used <= |replies| && run.rest == replies[used..]
      && |run.last.researcherCalls| == |s.researcherCalls| + used
      && s.researcherCalls <= run.last.researcherCalls
      && (run.stop == OutOfReplies ==> run.rest == [])
    decreases |replies|
  {
    if replies != [] {
      var next, halted := ConverseFirstStep(blocks, s, replies);
      if !halted {
        ConverseUsesPrefix(blocks, next, replies[1..]);
        var run := Converse(blocks, next, replies[1..]);
        var used := |replies| - |run.rest|;
        assert replies[1..][used - 1..] == replies[used..];
      }
    }
  }

  /** The loop consumes the results in order: the researcher call it
      records for the k-th result it uses has that result's output (how
      many it uses is `ConverseUsesPrefix`). */
  lemma {:induction false} ConverseConsumes(blocks: seq<Block>, s: Loop, replies: seq<Replies>)
    ensures var calls := Converse(blocks, s, replies).last.researcherCalls;
      forall k :: |s.researcherCalls| <= k < |calls| && k - |s.researcherCalls| < |replies| ==>
        calls[k].output == ResearcherResult(replies[k - |s.researcherCalls|])
    decreases |replies|
  {
    ConverseUsesPrefix(blocks, s, replies);
    if replies != [] {
      var next, halted := ConverseFirstStep(blocks, s, replies);
      if !halted {
        ConverseUsesPrefix(blocks, next, replies[1..]);
        ConverseConsumes(blocks, next, replies[1..]);
        var calls := Converse(blocks, next, replies[1..]).last.researcherCalls;
        forall k | |s.researcherCalls| <= k < |calls|
          ensures calls[k].output == ResearcherResult(replies[k - |s.researcherCalls|])
        {
          if k == |s.researcherCalls| {
            assert calls[k] == next.researcherCalls[k];
          } else {
            assert replies[1..][k - |next.researcherCalls|] == replies[k - |s.researcherCalls|];
          }
        }
      }
    }
  }

  /** The first pass of the loop records one researcher call, with the
      first result's output, and either halts there or hands the remaining
      results to the next pass. */
  lemma ConverseFirstStep(blocks: seq<Block>, s: Loop, replies: seq<Replies>) returns (next: Loop, halted: bool)
    requires replies != []
    ensures next.researcherCalls == s.researcherCalls
      + [ResearcherCall(ResearcherInput(s.dialogue), s.blockIndex, s.block, ResearcherResult(replies[0]))]
    ensures halted ==> var run := Converse(blocks, s, replies);
      run.last == next && run.rest == replies[1..] && run.stop != OutOfReplies
    ensures !halted ==> Converse(blocks, s, replies) == Converse(blocks, next, replies[1..])
  {
    var step := Iterate(blocks, s, replies[0]);
    halted := step.Halt?;
    next := After(step);
  }

  /** The first call the loop makes is shown the greeting or the dialogue
      it started from. */
  lemma ConverseFirstCall(blocks: seq<Block>, s: Loop, replies: seq<Replies>)
    requires replies != []
    ensures var calls := Converse(blocks, s, replies).last.researcherCalls;
      |calls| > |s.researcherCalls| && calls[|s.researcherCalls|].input == ResearcherInput(s.dialogue)
  {
    var step := Iterate(blocks, s, replies[0]);
    IterateCallsResearcher(blocks, s, replies[0]);
    if step.Continue? {
      ConverseUsesPrefix(blocks, step.next, replies[1..]);
    }
  }

  /** The loop raises only the missing-question ValueError, when the last
      result it consumed has a researcher output with neither `finished` nor
      a question, or the backend's exception, when a call of that last
      result raised. */
  lemma {:induction false} ConverseRaises(blocks: seq<Block>, s: Loop, replies: seq<Replies>)
    ensures var run := Converse(blocks, s, replies);
      var used := |replies| - |run.rest|;
      run.stop.Raised? ==>
        && 0 < used <= |replies|
        && (run.stop.error == NoQuestion || run.stop.error == BackendError)
        && (run.stop.error == NoQuestion ==>
              && replies[used - 1].raising != ResearcherRaises
              && !Finishes(replies[used - 1].researcher) && !AsksQuestion(replies[used - 1].researcher))
        && (run.stop.error == BackendError ==> replies[used - 1].raising != Returns)
    decreases |replies|
  {
    if replies != [] {
      match Iterate(blocks, s, replies[0])
      case Continue(next) =>
        ConverseRaises(blocks, next, replies[1..]);
        var run := Converse(blocks, next, replies[1..]);
        var used := |replies| - |run.rest|;
        if run.stop.Raised? {
          assert replies[1..][used - 2] == replies[used - 1];
        }
      case Halt(_, _) =>
    }
  }

  /** The whole loop keeps the loop consistent, only ever extends the
      dialogue, and stops with `GuideDone` exactly when the block index has
      run past the last block. */
  lemma {:induction false} ConverseKeepsConsistent(blocks: seq<Block>, s: Loop, replies: seq<Replies>)
    requires Consistent(blocks, s) && InBlock(blocks, s)
    ensures var run := Converse(blocks, s, replies);
      && Consistent(blocks, run.last)
      && s.dialogue <= run.last.dialogue
      && (run.stop == GuideDone <==> run.last.blockIndex == |blocks|)
      && (run.stop != GuideDone ==> InBlock(blocks, run.last))
    decreases |replies|
  {
    if replies != [] {
      IterateKeepsConsistent(blocks, s, replies[0]);
      match Iterate(blocks, s, replies[0])
      case Continue(next) =>
        ConverseKeepsConsistent(blocks, next, replies[1..]);
      case Halt(stop, last) =>
    }
  }

  /** The k-th respondent call was shown between one and four turns, the
      last of them the k-th question. */
  lemma TranscriptWindows(s: Loop)
    requires Transcript(s)
    ensures forall k :: 0 <= k < |s.respondentInputs| ==>
      && 1 <= |s.respondentInputs[k]| <= 4
      && s.respondentInputs[k][|s.respondentInputs[k]| - 1] == s.dialogue[2 * k]
  {
    forall k | 0 <= k < |s.respondentInputs|
      ensures 1 <= |s.respondentInputs[k]| <= 4
      ensures s.respondentInputs[k][|s.respondentInputs[k]| - 1] == s.dialogue[2 * k]
    {
      var prefix := s.dialogue[..2 * k + 1];
      var window := s.respondentInputs[k];
      assert window == prefix[|prefix| - |window|..];
      assert window[|window| - 1] == prefix[2 * k];
    }
  }

  /** What one conversation that starts in the first block of a non-empty
      guide does with the backend: the results are consumed in order, one
      researcher call each; the first call sees the greeting in the first
      block; every researcher call was made in the block reached by the
      `finished` outputs before it and never past the last block; the loop
      ends normally exactly when every block has been finished; and the only
      errors it raises are the missing-question ValueError and the
      backend's exceptions. */
  lemma ConversationTrace(blocks: seq<Block>, context: StudyContext, replies: seq<Replies>)
    requires blocks != [] && context.discussionBlock == blocks[0]
    ensures var run := Converse(blocks, Start(context), replies);
      var calls := run.last.researcherCalls;
      && |calls| <= |replies| && run.rest == replies[|calls|..]
      && (forall k :: 0 <= k < |calls| ==> calls[k].output == ResearcherResult(replies[k]))
      && (calls != [] ==> calls[0].input == [Greeting] && calls[0].block == blocks[0])
      && CallsTraced(blocks, calls, run.last.dialogue)
      && FinishedCount(calls) <= |blocks|
      && (run.stop == GuideDone <==> FinishedCount(calls) == |blocks|)
      && (run.stop.Raised? ==> run.stop.error == NoQuestion || run.stop.error == BackendError)
      && (run.stop == OutOfReplies ==> run.rest == [])
  {
    var s := Start(context);
    StartConsistent(blocks, context);
    ConverseUsesPrefix(blocks, s, replies);
    ConverseConsumes(blocks, s, replies);
    ConverseKeepsConsistent(blocks, s, replies);
    ConverseRaises(blocks, s, replies);
    if replies != [] {
      ConverseFirstCall(blocks, s, replies);
      var last := Converse(blocks, s, replies).last;
      assert TracedCall(blocks, last.researcherCalls, last.dialogue, 0);
    }
  }

  /** The dialogue of one conversation that starts in the first block of a
      non-empty guide alternates non-empty questions and answers, and the
      k-th respondent call saw between one and four turns ending with the
      k-th question. */
  lemma ConversationTranscript(blocks: seq<Block>, context: StudyContext, replies: seq<Replies>)
    requires blocks != [] && context.discussionBlock == blocks[0]
    ensures var last := Converse(blocks, Start(context), replies).last;
      var d := last.dialogue;
      var inputs := last.respondentInputs;
      && Alternates(d) && |d| == 2 * |inputs|
      && (forall k :: 0 <= k < |inputs| ==>
            && inputs[k] == RespondentWindow(d[..2 * k + 1])
            && 1 <= |inputs[k]| <= 4
            && inputs[k][|inputs[k]| - 1] == d[2 * k])
  {
    StartConsistent(blocks, context);
    ConverseKeepsConsistent(blocks, Start(context), replies);
    TranscriptWindows(Converse(blocks, Start(context), replies).last);
  }

  /** The loop from the i-th result on, after an iteration that continues,
      is the loop from the next result on. */
  lemma ConverseFrom(blocks: seq<Block>, s: Loop, replies: seq<Replies>, i: nat, next: Loop)
    requires i < |replies| && Iterate(blocks, s, replies[i]) == Continue(next)
    ensures Converse(blocks, s, replies[i..]) == Converse(blocks, next, replies[i + 1..])
  {
    assert replies[i..][0] == replies[i];
    assert replies[i..][1..] == replies[i + 1..];
  }

  /** The loop from the i-th result on ends with an iteration that halts. */
  lemma ConverseHaltsAt(blocks: seq<Block>, s: Loop, replies: seq<Replies>, i: nat, stop: Stop, last: Loop)
    requires i < |replies| && Iterate(blocks, s, replies[i]) == Halt(stop, last)
    ensures Converse(blocks, s, replies[i..]) == Run(stop, last, replies[i + 1..])
  {
    assert replies[i..][0] == replies[i];
    assert replies[i..][1..] == replies[i + 1..];
  }

  /** One pass of the loop from the i-th result on, case by case: how it
      halts, or the loop variables it hands to the next pass. */
  lemma ConverseStepAt(blocks: seq<Block>, s: Loop, replies: seq<Replies>, i: nat) returns (next: Loop)
    requires i < |replies|
    ensures var r := replies[i];
      var run := Converse(blocks, s, replies[i..]);
      && (r.raising == ResearcherRaises ==> run.stop == Raised(BackendError))
      && (r.raising != ResearcherRaises && Finishes(r.researcher) && s.blockIndex + 1 >= |blocks|
          ==> run.stop == GuideDone && run.last.dialogue == s.dialogue)
      && (r.raising != ResearcherRaises && Finishes(r.researcher) && s.blockIndex + 1 < |blocks|
          ==> && run == Converse(blocks, next, replies[i + 1..])
              && next.blockIndex == s.blockIndex + 1 && next.block == blocks[s.blockIndex + 1]
              && next.dialogue == s.dialogue)
      && (r.raising != ResearcherRaises && !Finishes(r.researcher) && !AsksQuestion(r.researcher)
          ==> run.stop == Raised(NoQuestion))
      && (r.raising == RespondentRaises && !Finishes(r.researcher) && AsksQuestion(r.researcher)
          ==> run.stop == Raised(BackendError))
      && (r.raising == Returns && !Finishes(r.researcher) && AsksQuestion(r.researcher)
          ==> && run == Converse(blocks, next, replies[i + 1..])
              && next.blockIndex == s.blockIndex && next.block == s.block
              && next.dialogue == s.dialogue + [Message(Assistant, r.researcher.value.nextQuestion.value)]
                                            + [Message(User, StoredAnswer(r.respondent))])
  {
    var r := replies[i];
    next := s;
    if r.raising == ResearcherRaises
       || (r.raising == RespondentRaises && !Finishes(r.researcher) && AsksQuestion(r.researcher)) {
      var last := IterateBackendRaises(blocks, s, r);
      ConverseHaltsAt(blocks, s, replies, i, Raised(BackendError), last);
    } else if Finishes(r.researcher) && s.blockIndex + 1 >= |blocks| {
      var last := IterateEndsGuide(blocks, s, r);
      ConverseHaltsAt(blocks, s, replies, i, GuideDone, last);
    } else if Finishes(r.researcher) {
      next := IterateAdvances(blocks, s, r);
      ConverseFrom(blocks, s, replies, i, next);
    } else if !AsksQuestion(r.researcher) {
      var last := IterateRaises(blocks, s, r);
      ConverseHaltsAt(blocks, s, replies, i, Raised(NoQuestion), last);
    } else {
      next := IterateAsks(blocks, s, r);
      ConverseFrom(blocks, s, replies, i, next);
      var question := Message(Assistant, r.researcher.value.nextQuestion.value);
      assert s.dialogue + [question] + [Message(User, StoredAnswer(r.respondent))]
          == s.dialogue + [question, Message(User, StoredAnswer(r.respondent))];
    }
  }

  /** A result in which the researcher asks `question` and the respondent answers `answer`. */
  function Asks(question: string, answer: string): Replies
  {
    Replies(Some(ResearcherOutput(Some(question), false)), Some(answer), Returns)
  }

  /** A result in which the researcher says the block is finished. */
  const Done := Replies(Some(ResearcherOutput(None, true)), None, Returns)

  /** Two blocks, one question in the first and two in the second: the loop
      ends normally with the three exchanges in order, the first question
      asked while the context held the first block and the other two while
      it held the second. */
  lemma TwoBlockInterview(blocks: seq<Block>, context: StudyContext, replies: seq<Replies>,
                          q1: string, a1: string, q2: string, a2: string, q3: string, a3: string)
    requires |blocks| == 2 && context.discussionBlock == blocks[0]
    requires q1 != "" && q2 != "" && q3 != ""
    requires |replies| == 5 && replies[0] == Asks(q1, a1) && replies[1] == Done
    requires replies[2] == Asks(q2, a2) && replies[3] == Asks(q3, a3) && replies[4] == Done
    ensures var run := Converse(blocks, Start(context), replies);
      var d := run.last.dialogue;
      var calls := run.last.researcherCalls;
      && run.stop == GuideDone && run.rest == []
      && |d| == 6
      && d[0] == Message(Assistant, q1) && d[1] == Message(User, a1)
      && d[2] == Message(Assistant, q2) && d[3] == Message(User, a2)
      && d[4] == Message(Assistant, q3) && d[5] == Message(User, a3)
      && |calls| == 5
      && calls[0].block == blocks[0] && calls[0].input == [Greeting]
      && calls[2].block == blocks[1] && calls[3].block == blocks[1]
  {
    var s0 := Start(context);
    var s1 := IterateAsks(blocks, s0, replies[0]);
    var s2 := IterateAdvances(blocks, s1, replies[1]);
    var s3 := IterateAsks(blocks, s2, replies[2]);
    var s4 := IterateAsks(blocks, s3, replies[3]);
    var last := IterateEndsGuide(blocks, s4, replies[4]);
    ConverseFrom(blocks, s0, replies, 0, s1);
    ConverseFrom(blocks, s1, replies, 1, s2);
    ConverseFrom(blocks, s2, replies, 2, s3);
    ConverseFrom(blocks, s3, replies, 3, s4);
    ConverseHaltsAt(blocks, s4, replies, 4, GuideDone, last);
    assert replies[0..] == replies;
  }

  /** The `while True` loop of `simulate_conversation`, one backend result
      per pass. The ghost `state` is the loop's variables with the trace of
      backend calls; the inputs the two agents are shown (the greeting or
      the dialogue, and the last four turns) exist only in that trace, as
      `ResearcherInput` and `RespondentWindow` of the dialogue. The loop
      ends as `Converse` says. */
  method InterviewLoop(blocks: seq<Block>, context: StudyContext, replies: seq<Replies>)
    returns (r: Result<seq<Message>>)
    ensures r == Outcome(Converse(blocks, Start(context), replies))
  {
    var block := context.discussionBlock;
    var dialogue: seq<Message> := [];
    var blockIndex: nat := 0;
    ghost var state := Start(context);
    ghost var run := Converse(blocks, state, replies);
    var i := 0;
    while true
      invariant 0 <= i <= |replies|
      invariant run == Converse(blocks, state, replies[i..])
      invariant state.blockIndex == blockIndex && state.block == block && state.dialogue == dialogue
      decreases |replies| - i
    {
      if i == |replies| {
        return Failure(RepliesExhausted);
      }
      ghost var next := ConverseStepAt(blocks, state, replies, i);
      if replies[i].raising == ResearcherRaises {
        return Failure(BackendError);
      }
      var researcherOutput := replies[i].researcher;
      if researcherOutput.Some? && researcherOutput.value.finished {
        blockIndex := blockIndex + 1;
        var nextBlock := NextBlock(blocks, blockIndex);
        if nextBlock.None? {
          break;
        }
        block := nextBlock.value;
        state := next;
        i := i + 1;
        continue;
      } else if researcherOutput.None? || researcherOutput.value.nextQuestion.None?
                || researcherOutput.value.nextQuestion.value == "" {
        return Failure(NoQuestion);
      }
      var question := researcherOutput.value.nextQuestion.value;
      dialogue := dialogue + [Message(Assistant, question)];
      if replies[i].raising == RespondentRaises {
        // The exception propagates; the question just appended is lost with the list.
        return Failure(BackendError);
      }
      var userAnswer := if replies[i].respondent.Some? then replies[i].respondent.value else "";
      dialogue := dialogue + [Message(User, userAnswer)];
      state := next;
      i := i + 1;
    }
    return Success(dialogue);
  }
}
