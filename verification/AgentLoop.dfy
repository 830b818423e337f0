// The ReAct loop (internal/loop/loop.go), its execution context
// (internal/context/context.go) and mid-run compaction
// (internal/compact/compactor.go).
module AgentLoop {
  import opened Basics
  import opened Messages
  import opened Budget
  import AnthropicStream

  datatype Status = Running | Success | Failed

  // Result of one tool invocation, as the invoker returns it.
  datatype ToolOutcome = ToolOutcome(content: string, isError: bool)

  datatype Reply = Reply(stopReason: string, text: string, content: seq<ContentBlock>, contextPct: real)

  datatype ChatResult = ChatError(message: string, cancelled: bool) | ChatReply(reply: Reply)

  // All that one iteration sees of the outside: the model's answer, the result
  // of the i-th tool call, and the summary if the history is compacted (None
  // when summarising fails).
  datatype Turn = Turn(chat: ChatResult, tool: nat -> ToolOutcome, summary: Option<string>)

  datatype Config = Config(hasCompactor: bool, threshold: real, limit: nat, keep: nat)

  predicate ValidConfig(cfg: Config) {
    cfg.keep <= cfg.limit
  }

  datatype RunState = RunState(
    maxSteps: int,
    step: nat,
    messages: seq<Message>,
    status: Status,
    reason: string,
    result: string,
    finalAssistant: seq<ContentBlock>,
    compacted: bool)

  const LIMIT_ERROR := "Error: output token limit reached before this tool call could be completed. "
    + "Please break the task into smaller steps and try again."
  const ACKNOWLEDGEMENT := "Understood, I'll continue from this summary."

  // ---- Specification of one iteration -------------------------------------

  function AnswerTo(use: ContentBlock, outcome: ToolOutcome): (r: ContentBlock)
    ensures r.kind.ToolResultBlock? && r.toolUseId == use.id
    ensures r.content == outcome.content && r.isError == outcome.isError
  {
    ToolResultOf(use.id, outcome.content, outcome.isError)
  }

  function Results(uses: seq<ContentBlock>, tool: nat -> ToolOutcome): (rs: seq<ContentBlock>)
    ensures |rs| == |uses|
    ensures forall i | 0 <= i < |rs| :: rs[i].kind.ToolResultBlock? && rs[i].toolUseId == uses[i].id
  {
    var rs := seq(|uses|, i requires 0 <= i < |uses| => AnswerTo(uses[i], tool(i)));
    assert forall i | 0 <= i < |rs| :: rs[i] == AnswerTo(uses[i], tool(i));
    rs
  }

  function LimitResults(uses: seq<ContentBlock>): (rs: seq<ContentBlock>)
    ensures |rs| == |uses|
    ensures forall i | 0 <= i < |rs| :: rs[i].kind.ToolResultBlock? && rs[i].toolUseId == uses[i].id
  {
    seq(|uses|, i requires 0 <= i < |uses| => ToolResultOf(uses[i].id, LIMIT_ERROR, true))
  }

  // The message act() adds after the assistant's, if any.
  function ActMessages(reply: Reply, tool: nat -> ToolOutcome): seq<Message> {
    var uses := ToolUses(reply.content);
    if uses == [] then []
    else if reply.stopReason == "tool_use" then [Message(User, Results(uses, tool))]
    else if reply.stopReason == "max_tokens" then [Message(User, LimitResults(uses))]
    else []
  }

  function Summary(text: string): seq<Message> {
    [NewTextMessage(User, text), NewTextMessage(Assistant, ACKNOWLEDGEMENT)]
  }

  predicate ShouldCompact(cfg: Config, status: Status, reply: Reply) {
    cfg.hasCompactor && cfg.threshold > 0.0 && status == Running
    && reply.stopReason == "tool_use" && reply.contextPct >= cfg.threshold
  }

  function AfterReply(cfg: Config, s: RunState, reply: Reply, turn: Turn): RunState {
    var messages := s.messages + [Message(Assistant, reply.content)] + ActMessages(reply, turn.tool);
    var t := s.(messages := messages, finalAssistant := reply.content);
    var u := if reply.stopReason == "end_turn" || reply.stopReason == "" then t.(status := Success, result := reply.text)
             else if s.step >= s.maxSteps then
               t.(status := Failed, reason := "exceeded_max_steps", result := "exceeded max steps")
             else t;
    if ShouldCompact(cfg, u.status, reply) && turn.summary.Some?
    then u.(messages := Summary(turn.summary.value), compacted := true)
    else u
  }

  function Iterate(cfg: Config, s: RunState, turn: Turn): RunState {
    var t := s.(step := s.step + 1);
    match turn.chat
    case ChatError(message, cancelled) =>
      t.(status := Failed, reason := if cancelled then "cancelled" else "llm_error", result := message)
    case ChatReply(reply) => AfterReply(cfg, t, reply, turn)
  }

  predicate Continues(s: RunState) {
    s.status == Running && s.step < s.maxSteps
  }

  // The state when Run returns.
  function RunFrom(cfg: Config, s: RunState, world: nat -> Turn): RunState
    decreases s.maxSteps - s.step
  {
    if Continues(s) then RunFrom(cfg, Iterate(cfg, s, world(s.step)), world) else s
  }

  // The message lists handed to the provider, in order.
  function Requests(cfg: Config, s: RunState, world: nat -> Turn): seq<seq<Message>>
    requires ValidConfig(cfg)
    decreases s.maxSteps - s.step
  {
    if Continues(s) then
      [Truncate(s.messages, cfg.limit, cfg.keep)] + Requests(cfg, Iterate(cfg, s, world(s.step)), world)
    else []
  }

  // Run reports an error only when the run was cancelled.
  predicate Aborted(cfg: Config, s: RunState, world: nat -> Turn)
    decreases s.maxSteps - s.step
  {
    Continues(s) &&
    var chat := world(s.step).chat;
    (chat.ChatError? && chat.cancelled) || Aborted(cfg, Iterate(cfg, s, world(s.step)), world)
  }

  // ---- Pairing ------------------------------------------------------------

  // The provider's side of the contract: tool_use blocks come only with a stop
  // reason that makes the loop answer them.
  predicate Obeys(turn: Turn) {
    turn.chat.ChatReply? && UseIdsOf(turn.chat.reply.content) != [] ==>
      turn.chat.reply.stopReason == "tool_use" || turn.chat.reply.stopReason == "max_tokens"
  }

  // The block list act() sends back answers exactly the calls made, in order.
  lemma ResultsAnswer(content: seq<ContentBlock>, results: seq<ContentBlock>)
    requires |results| == |ToolUses(content)|
    requires forall i | 0 <= i < |results| ::
      results[i].kind.ToolResultBlock? && results[i].toolUseId == ToolUses(content)[i].id
    ensures ResultIdsOf(results) == UseIdsOf(content)
  {
    ToolUseIdsAligned(content);
    ResultIdsOfResults(results);
  }

  lemma ExchangeIsPaired(turn: Turn)
    requires turn.chat.ChatReply? && Obeys(turn)
    ensures Paired([Message(Assistant, turn.chat.reply.content)] + ActMessages(turn.chat.reply, turn.tool))
  {
    var reply := turn.chat.reply;
    var uses := ToolUses(reply.content);
    ToolUseIdsAligned(reply.content);
    var ask := Message(Assistant, reply.content);
    if uses == [] {
      assert PairedFrom([], [ask]);
      PairedIsFrom([ask]);
      assert [ask] + ActMessages(reply, turn.tool) == [ask];
    } else {
      var results := if reply.stopReason == "tool_use" then Results(uses, turn.tool) else LimitResults(uses);
      ResultsAnswer(reply.content, results);
      assert ActMessages(reply, turn.tool) == [Message(User, results)];
      var exchange := [ask, Message(User, results)];
      assert exchange[1..] == [Message(User, results)];
      assert PairedFrom([], exchange);
      PairedIsFrom(exchange);
      assert [ask] + ActMessages(reply, turn.tool) == exchange;
    }
  }

  lemma TextHasNoIds(text: string)
    ensures UseIdsOf([TextOf(text)]) == [] && ResultIdsOf([TextOf(text)]) == []
  {
    assert [TextOf(text)][1..] == [];
  }

  lemma SummaryIsPaired(text: string)
    ensures Paired(Summary(text))
  {
    var ms := Summary(text);
    assert ms[1..] == [ms[1]];
    TextHasNoIds(text);
    TextHasNoIds(ACKNOWLEDGEMENT);
    PairedIsFrom(ms);
  }

  // One iteration keeps the history paired, however it ends.
  lemma IterateKeepsPaired(cfg: Config, s: RunState, turn: Turn)
    requires Paired(s.messages) && Obeys(turn)
    ensures Paired(Iterate(cfg, s, turn).messages)
  {
    if turn.chat.ChatReply? {
      var added := [Message(Assistant, turn.chat.reply.content)] + ActMessages(turn.chat.reply, turn.tool);
      ExchangeIsPaired(turn);
      PairedAppend(s.messages, added);
      assert s.messages + added
          == s.messages + [Message(Assistant, turn.chat.reply.content)] + ActMessages(turn.chat.reply, turn.tool);
      if turn.summary.Some? {
        SummaryIsPaired(turn.summary.value);
      }
    }
  }

  lemma {:induction false} RunKeepsPaired(cfg: Config, s: RunState, world: nat -> Turn)
    requires Paired(s.messages) && forall k: nat :: Obeys(world(k))
    ensures Paired(RunFrom(cfg, s, world).messages)
    decreases s.maxSteps - s.step
  {
    if Continues(s) {
      IterateKeepsPaired(cfg, s, world(s.step));
      RunKeepsPaired(cfg, Iterate(cfg, s, world(s.step)), world);
    }
  }

  // Every request that reaches the wire, after truncation and after the
  // provider has filtered it, is paired.
  lemma {:induction false} RequestsArePaired(cfg: Config, s: RunState, world: nat -> Turn)
    requires ValidConfig(cfg) && Paired(s.messages) && forall k: nat :: Obeys(world(k))
    ensures forall r | r in Requests(cfg, s, world) :: Paired(r) && Paired(AnthropicStream.Filtered(r))
    decreases s.maxSteps - s.step
  {
    if Continues(s) {
      TruncateKeepsPaired(s.messages, cfg.limit, cfg.keep);
      AnthropicStream.FilterKeepsPaired(Truncate(s.messages, cfg.limit, cfg.keep));
      IterateKeepsPaired(cfg, s, world(s.step));
      RequestsArePaired(cfg, Iterate(cfg, s, world(s.step)), world);
    }
  }

  // The assumption about the provider is exactly what is needed: an iteration
  // keeps a paired history paired if and only if the reply meets it.
  lemma IteratePairsIff(cfg: Config, s: RunState, turn: Turn)
    requires Paired(s.messages)
    ensures Paired(Iterate(cfg, s, turn).messages) <==> Obeys(turn)
  {
    if Obeys(turn) {
      IterateKeepsPaired(cfg, s, turn);
    } else {
      var ms := Iterate(cfg, s, turn).messages;
      assert ms == s.messages + [Message(Assistant, turn.chat.reply.content)];
      assert AsksBefore(ms, |ms|) == UseIdsOf(turn.chat.reply.content) != AnswersAt(ms, |ms|);
    }
  }

  // ---- Termination and bookkeeping ------------------------------------------

  // A run that starts running leaves that status exactly if it may take a step.
  lemma {:induction false} RunEnds(cfg: Config, s: RunState, world: nat -> Turn)
    requires s.status == Running
    ensures RunFrom(cfg, s, world).status != Running <==> s.step < s.maxSteps
    ensures s.step <= RunFrom(cfg, s, world).step
    ensures RunFrom(cfg, s, world).step <= s.maxSteps || s.maxSteps <= s.step
    decreases s.maxSteps - s.step
  {
    if Continues(s) {
      var t := Iterate(cfg, s, world(s.step));
      if t.status == Running {
        RunEnds(cfg, t, world);
      }
    }
  }

  // Only a cancelled run returns an error, and it is marked so.
  lemma {:induction false} AbortedIsCancelled(cfg: Config, s: RunState, world: nat -> Turn)
    requires Aborted(cfg, s, world)
    ensures RunFrom(cfg, s, world).status == Failed && RunFrom(cfg, s, world).reason == "cancelled"
    decreases s.maxSteps - s.step
  {
    var t := Iterate(cfg, s, world(s.step));
    var chat := world(s.step).chat;
    if !(chat.ChatError? && chat.cancelled) {
      AbortedIsCancelled(cfg, t, world);
    }
  }

  lemma ReasonsDiffer()
    ensures "llm_error" != "cancelled" && "exceeded_max_steps" != "cancelled" && "" != "cancelled"
  {
    assert "llm_error"[0] != "cancelled"[0] && "exceeded_max_steps"[0] != "cancelled"[0];
  }

  // ... and the mark says exactly that.
  lemma {:induction false} AbortedIff(cfg: Config, s: RunState, world: nat -> Turn)
    requires s.reason != "cancelled"
    ensures Aborted(cfg, s, world) <==> RunFrom(cfg, s, world).reason == "cancelled"
    decreases s.maxSteps - s.step
  {
    if Continues(s) {
      var t := Iterate(cfg, s, world(s.step));
      ReasonsDiffer();
      if t.reason == "cancelled" {
        assert !Continues(t);
      } else {
        AbortedIff(cfg, t, world);
      }
    }
  }

  // ---- A run in terms of its turns -----------------------------------------------

  // A turn after which the run is over, whatever its step limit.
  predicate StopsAt(turn: Turn) {
    turn.chat.ChatError? || turn.chat.reply.stopReason == "end_turn" || turn.chat.reply.stopReason == ""
  }

  // The number of the step after the last.
  function EndStep(maxSteps: int, world: nat -> Turn, k: nat): nat
    decreases maxSteps - k
  {
    if k >= maxSteps then k
    else if StopsAt(world(k)) then k + 1
    else EndStep(maxSteps, world, k + 1)
  }

  // Step k calls tools, is not the last allowed, fills the context and is summarised.
  predicate CompactsAt(cfg: Config, maxSteps: int, world: nat -> Turn, k: nat) {
    && cfg.hasCompactor && cfg.threshold > 0.0 && k + 1 < maxSteps
    && world(k).chat.ChatReply? && world(k).chat.reply.stopReason == "tool_use"
    && world(k).chat.reply.contextPct >= cfg.threshold && world(k).summary.Some?
  }

  // The last reply received in steps from..n, or `none`.
  function LastReply(world: nat -> Turn, from: nat, n: nat, none: seq<ContentBlock>): seq<ContentBlock>
    decreases n
  {
    if n <= from then none
    else if world(n - 1).chat.ChatReply? then world(n - 1).chat.reply.content
    else LastReply(world, from, n - 1, none)
  }

  lemma {:induction false} LastReplyShift(world: nat -> Turn, from: nat, n: nat, none: seq<ContentBlock>)
    requires from < n
    ensures LastReply(world, from, n, none)
         == LastReply(world, from + 1, n, if world(from).chat.ChatReply? then world(from).chat.reply.content else none)
    decreases n
  {
    if from + 1 < n {
      LastReplyShift(world, from, n - 1, none);
    }
  }

  lemma StepInWorldTerms(cfg: Config, s: RunState, turn: Turn, world: nat -> Turn)
    requires Continues(s) && turn == world(s.step)
    ensures var t := Iterate(cfg, s, turn);
      && t.step == s.step + 1 && t.maxSteps == s.maxSteps
      && (t.status != Running <==> StopsAt(turn) || t.step >= s.maxSteps)
      && (t.compacted <==> s.compacted || CompactsAt(cfg, s.maxSteps, world, s.step))
      && t.finalAssistant == if turn.chat.ChatReply? then turn.chat.reply.content else s.finalAssistant
  {
    assert "tool_use"[0] != "end_turn"[0];
  }

  // The outcome of a run whose last turn this is.
  lemma StepOutcome(cfg: Config, s: RunState, turn: Turn)
    requires Continues(s)
    ensures var t := Iterate(cfg, s, turn);
      && (turn.chat.ChatError? ==>
            t.status == Failed && t.reason == (if turn.chat.cancelled then "cancelled" else "llm_error")
            && t.result == turn.chat.message && t.messages == s.messages)
      && (turn.chat.ChatReply? && (turn.chat.reply.stopReason == "end_turn" || turn.chat.reply.stopReason == "") ==>
            t.status == Success && t.reason == s.reason && t.result == turn.chat.reply.text)
      && (!StopsAt(turn) && s.step + 1 >= s.maxSteps ==>
            t.status == Failed && t.reason == "exceeded_max_steps" && t.result == "exceeded max steps")
      && (!StopsAt(turn) && s.step + 1 < s.maxSteps ==> t.status == Running && t.reason == s.reason && t.result == s.result)
  {
  }

  lemma {:induction false} EndStepGrows(maxSteps: int, world: nat -> Turn, k: nat)
    ensures k <= EndStep(maxSteps, world, k)
    ensures EndStep(maxSteps, world, k) > k <==> k < maxSteps
    decreases maxSteps - k
  {
    if k < maxSteps && !StopsAt(world(k)) {
      EndStepGrows(maxSteps, world, k + 1);
    }
  }

  lemma {:induction false} RunSteps(cfg: Config, s: RunState, world: nat -> Turn)
    requires s.status == Running
    ensures RunFrom(cfg, s, world).step == EndStep(s.maxSteps, world, s.step)
    ensures RunFrom(cfg, s, world).finalAssistant == LastReply(world, s.step, EndStep(s.maxSteps, world, s.step), s.finalAssistant)
    decreases s.maxSteps - s.step
  {
    if Continues(s) {
      var t := Iterate(cfg, s, world(s.step));
      StepInWorldTerms(cfg, s, world(s.step), world);
      if t.status == Running {
        RunSteps(cfg, t, world);
        EndStepGrows(s.maxSteps, world, t.step);
        LastReplyShift(world, s.step, EndStep(s.maxSteps, world, s.step), s.finalAssistant);
      } else {
        assert RunFrom(cfg, t, world) == t;
      }
    }
  }

  lemma {:induction false} RunCompacts(cfg: Config, s: RunState, world: nat -> Turn)
    requires s.status == Running
    ensures RunFrom(cfg, s, world).compacted
       <==> s.compacted || exists k | s.step <= k < EndStep(s.maxSteps, world, s.step) :: CompactsAt(cfg, s.maxSteps, world, k)
    decreases s.maxSteps - s.step
  {
    if Continues(s) {
      var t := Iterate(cfg, s, world(s.step));
      StepInWorldTerms(cfg, s, world(s.step), world);
      if t.status == Running {
        RunCompacts(cfg, t, world);
        EndStepGrows(s.maxSteps, world, t.step);
      } else {
        assert RunFrom(cfg, t, world) == t;
      }
    }
  }

  // How many steps a run takes, whether it was compacted and what reply it
  // keeps: all read off the world's turns.
  lemma {:induction false} RunInWorldTerms(cfg: Config, s: RunState, world: nat -> Turn)
    requires s.status == Running
    ensures var end, n := RunFrom(cfg, s, world), EndStep(s.maxSteps, world, s.step);
      && end.step == n
      && (end.compacted <==> s.compacted || exists k | s.step <= k < n :: CompactsAt(cfg, s.maxSteps, world, k))
      && end.finalAssistant == LastReply(world, s.step, n, s.finalAssistant)
  {
    RunSteps(cfg, s, world);
    RunCompacts(cfg, s, world);
  }

  // How a run ends: by its last turn, and as it began if it takes none.
  lemma {:induction false} RunOutcome(cfg: Config, s: RunState, world: nat -> Turn)
    requires s.status == Running
    ensures EndStep(s.maxSteps, world, s.step) > s.step ==>
      var end, last := RunFrom(cfg, s, world), world(EndStep(s.maxSteps, world, s.step) - 1);
      if last.chat.ChatError? then
        end.status == Failed && end.result == last.chat.message
        && end.reason == if last.chat.cancelled then "cancelled" else "llm_error"
      else if last.chat.reply.stopReason == "end_turn" || last.chat.reply.stopReason == "" then
        end.status == Success && end.result == last.chat.reply.text && end.reason == s.reason
      else
        end.status == Failed && end.reason == "exceeded_max_steps" && end.result == "exceeded max steps"
    ensures EndStep(s.maxSteps, world, s.step) == s.step ==> RunFrom(cfg, s, world) == s
    decreases s.maxSteps - s.step
  {
    EndStepGrows(s.maxSteps, world, s.step);
    if Continues(s) {
      var t := Iterate(cfg, s, world(s.step));
      StepInWorldTerms(cfg, s, world(s.step), world);
      StepOutcome(cfg, s, world(s.step));
      if t.status == Running {
        EndStepGrows(s.maxSteps, world, t.step);
        RunOutcome(cfg, t, world);
      } else {
        assert RunFrom(cfg, t, world) == t;
      }
    }
  }

  // ---- What each call is answered with ---------------------------------------------

  // The user message that follows a reply holds, for each of its calls in
  // order, that call's id and that call's own outcome; after a reply cut off by
  // the token limit it holds an error for each instead.
  lemma CallsGetTheirOwnResults(cfg: Config, s: RunState, turn: Turn, k: nat)
    requires turn.chat.ChatReply? && !CompactsAt(cfg, s.maxSteps, _ => turn, s.step) && Continues(s)
    requires turn.chat.reply.stopReason == "tool_use" || turn.chat.reply.stopReason == "max_tokens"
    requires k < |ToolUses(turn.chat.reply.content)|
    ensures var ms, n := Iterate(cfg, s, turn).messages, |s.messages|;
      && |ms| == n + 2 && ms[..n] == s.messages
      && ms[n].role == Assistant && ms[n].content == turn.chat.reply.content
      && ms[n + 1].role == User && |ms[n + 1].content| == |ToolUses(turn.chat.reply.content)|
      && var answer := ms[n + 1].content[k];
         && answer.kind == ToolResultBlock
         && answer.toolUseId == ToolUses(turn.chat.reply.content)[k].id
         && (turn.chat.reply.stopReason == "tool_use" ==>
               answer.content == turn.tool(k).content && answer.isError == turn.tool(k).isError)
         && (turn.chat.reply.stopReason == "max_tokens" ==>
               answer.isError && answer.content
                 == "Error: output token limit reached before this tool call could be completed. "
                  + "Please break the task into smaller steps and try again.")
         && answer.text == answer.id == answer.name == answer.thinking == answer.signature == "" && answer.input == map[]
  {
    var reply := turn.chat.reply;
    var uses := ToolUses(reply.content);
    assert "tool_use"[0] != "max_tokens"[0];
    var results := if reply.stopReason == "tool_use" then Results(uses, turn.tool) else LimitResults(uses);
    assert Iterate(cfg, s, turn).messages == s.messages + [Message(Assistant, reply.content)] + [Message(User, results)];
    ResultAt(uses, turn.tool, k);
  }

  lemma ResultAt(uses: seq<ContentBlock>, tool: nat -> ToolOutcome, k: nat)
    requires k < |uses|
    ensures Results(uses, tool)[k] == ToolResultOf(uses[k].id, tool(k).content, tool(k).isError)
  {
  }

  // What one turn adds to the history, as a relation: nothing on an error; the
  // reply as it is, then the answers to its calls if it has any to answer.
  ghost predicate IsExchange(turn: Turn, ms: seq<Message>) {
    match turn.chat
    case ChatError(_, _) => ms == []
    case ChatReply(reply) =>
      var uses := ToolUses(reply.content);
      |ms| > 0 && ms[0] == Message(Assistant, reply.content)
      && if uses == [] || (reply.stopReason != "tool_use" && reply.stopReason != "max_tokens") then |ms| == 1
         else
           && |ms| == 2 && ms[1].role == User && |ms[1].content| == |uses|
           && forall i | 0 <= i < |uses| ::
                ms[1].content[i] == if reply.stopReason == "tool_use"
                                    then ToolResultOf(uses[i].id, turn.tool(i).content, turn.tool(i).isError)
                                    else ToolResultOf(uses[i].id, LIMIT_ERROR, true)
  }

  lemma TurnIsExchange(turn: Turn)
    requires turn.chat.ChatReply?
    ensures IsExchange(turn, [Message(Assistant, turn.chat.reply.content)] + ActMessages(turn.chat.reply, turn.tool))
  {
    var reply := turn.chat.reply;
    var uses := ToolUses(reply.content);
    if uses != [] && reply.stopReason == "tool_use" {
      forall i | 0 <= i < |uses|
        ensures Results(uses, turn.tool)[i] == ToolResultOf(uses[i].id, turn.tool(i).content, turn.tool(i).isError)
      {
        ResultAt(uses, turn.tool, i);
      }
    }
  }

  // The step after the last compaction among steps from..n, or from.
  function Rewritten(cfg: Config, maxSteps: int, world: nat -> Turn, from: nat, n: nat): nat
    decreases n
  {
    if n <= from then from
    else if CompactsAt(cfg, maxSteps, world, n - 1) then n
    else Rewritten(cfg, maxSteps, world, from, n - 1)
  }

  lemma {:induction false} RewrittenShift(cfg: Config, maxSteps: int, world: nat -> Turn, from: nat, n: nat)
    requires from < n
    ensures from + 1 <= Rewritten(cfg, maxSteps, world, from + 1, n) <= n
    ensures Rewritten(cfg, maxSteps, world, from, n)
         == if Rewritten(cfg, maxSteps, world, from + 1, n) == from + 1 && !CompactsAt(cfg, maxSteps, world, from) then from
            else Rewritten(cfg, maxSteps, world, from + 1, n)
    decreases n
  {
    if from + 1 < n && !CompactsAt(cfg, maxSteps, world, n - 1) {
      RewrittenShift(cfg, maxSteps, world, from, n - 1);
    }
  }

  // A history is `base` followed by one exchange for each of the turns c..n.
  ghost predicate Transcribes(world: nat -> Turn, c: nat, n: nat, base: seq<Message>, ms: seq<Message>) {
    exists parts: seq<seq<Message>> :: IsTranscript(world, c, n, base, ms, parts)
  }

  ghost predicate IsTranscript(world: nat -> Turn, c: nat, n: nat, base: seq<Message>, ms: seq<Message>,
                               parts: seq<seq<Message>>) {
    && c + |parts| == n
    && ms == base + Flatten(parts)
    && forall j | 0 <= j < |parts| :: IsExchange(world(c + j), parts[j])
  }

  lemma NoTurnsYet(world: nat -> Turn, c: nat, base: seq<Message>)
    ensures Transcribes(world, c, c, base, base)
  {
    var parts: seq<seq<Message>> := [];
    assert base + Flatten(parts) == base;
    assert IsTranscript(world, c, c, base, base, parts);
  }

  lemma OneTurnBefore(world: nat -> Turn, c: nat, n: nat, base: seq<Message>, added: seq<Message>, ms: seq<Message>)
    requires Transcribes(world, c + 1, n, base + added, ms) && IsExchange(world(c), added)
    ensures Transcribes(world, c, n, base, ms)
  {
    var parts: seq<seq<Message>> :| IsTranscript(world, c + 1, n, base + added, ms, parts);
    var more := [added] + parts;
    FlattenCons(added, parts);
    Assoc(base, added, Flatten(parts));
    forall j | 0 <= j < |more| ensures IsExchange(world(c + j), more[j]) {
      assert j > 0 ==> more[j] == parts[j - 1] && c + j == c + 1 + (j - 1);
    }
    assert IsTranscript(world, c, n, base, ms, more);
  }

  // The history after the steps from..n of a run that began with `start`: that,
  // or the two messages of the last compaction, then one exchange for every turn
  // since.
  ghost predicate IsHistory(cfg: Config, maxSteps: int, world: nat -> Turn, from: nat, start: seq<Message>, n: nat,
                            ms: seq<Message>) {
    var c := Rewritten(cfg, maxSteps, world, from, n);
    && from <= c <= n
    && (c > from ==> world(c - 1).summary.Some?)
    && Transcribes(world, c, n,
         if c == from then start
         else [Message(User, [TextOf(world(c - 1).summary.value)]),
               Message(Assistant, [TextOf("Understood, I'll continue from this summary.")])],
         ms)
  }

  // The n-th turn turns the history `was` into `ms`.
  ghost predicate IsTurn(cfg: Config, maxSteps: int, world: nat -> Turn, n: nat, was: seq<Message>, ms: seq<Message>) {
    if CompactsAt(cfg, maxSteps, world, n) then
      ms == [Message(User, [TextOf(world(n).summary.value)]),
             Message(Assistant, [TextOf("Understood, I'll continue from this summary.")])]
    else
      |was| <= |ms| && ms[..|was|] == was && IsExchange(world(n), ms[|was|..])
  }

  lemma IterateIsTurn(cfg: Config, s: RunState, world: nat -> Turn)
    requires Continues(s)
    ensures IsTurn(cfg, s.maxSteps, world, s.step, s.messages, Iterate(cfg, s, world(s.step)).messages)
  {
    var turn := world(s.step);
    assert "tool_use"[0] != "end_turn"[0];
    if turn.chat.ChatReply? {
      TurnIsExchange(turn);
      var added := [Message(Assistant, turn.chat.reply.content)] + ActMessages(turn.chat.reply, turn.tool);
      Assoc(s.messages, [Message(Assistant, turn.chat.reply.content)], ActMessages(turn.chat.reply, turn.tool));
      assert (s.messages + added)[|s.messages|..] == added;
    } else {
      assert s.messages[|s.messages|..] == [];
    }
  }

  lemma NoHistoryYet(cfg: Config, maxSteps: int, world: nat -> Turn, from: nat, start: seq<Message>)
    ensures IsHistory(cfg, maxSteps, world, from, start, from, start)
  {
    NoTurnsYet(world, from, start);
  }

  lemma TurnBefore(cfg: Config, maxSteps: int, world: nat -> Turn, from: nat, start: seq<Message>,
                   next: seq<Message>, n: nat, ms: seq<Message>)
    requires from < n && IsTurn(cfg, maxSteps, world, from, start, next)
    requires IsHistory(cfg, maxSteps, world, from + 1, next, n, ms)
    ensures IsHistory(cfg, maxSteps, world, from, start, n, ms)
  {
    RewrittenShift(cfg, maxSteps, world, from, n);
    if Rewritten(cfg, maxSteps, world, from + 1, n) == from + 1 && !CompactsAt(cfg, maxSteps, world, from) {
      assert start + next[|start|..] == next;
      OneTurnBefore(world, from, n, start, next[|start|..], ms);
    }
  }

  // Main result on the history: what a run leaves, read off the world's turns.
  lemma {:induction false} RunHistory(cfg: Config, s: RunState, world: nat -> Turn)
    requires s.status == Running
    ensures IsHistory(cfg, s.maxSteps, world, s.step, s.messages, EndStep(s.maxSteps, world, s.step), RunFrom(cfg, s, world).messages)
    decreases s.maxSteps - s.step
  {
    if Continues(s) {
      var t := Iterate(cfg, s, world(s.step));
      StepInWorldTerms(cfg, s, world(s.step), world);
      IterateIsTurn(cfg, s, world);
      var n := EndStep(s.maxSteps, world, s.step);
      EndStepGrows(s.maxSteps, world, t.step);
      if t.status == Running {
        RunHistory(cfg, t, world);
      } else {
        NoHistoryYet(cfg, s.maxSteps, world, t.step, t.messages);
      }
      TurnBefore(cfg, s.maxSteps, world, s.step, s.messages, t.messages, n, RunFrom(cfg, t, world).messages);
    } else {
      NoHistoryYet(cfg, s.maxSteps, world, s.step, s.messages);
    }
  }

  ghost predicate CutHistory(cfg: Config, maxSteps: int, world: nat -> Turn, from: nat, start: seq<Message>, n: nat,
                             request: seq<Message>)
    requires ValidConfig(cfg)
  {
    exists ms :: IsHistory(cfg, maxSteps, world, from, start, n, ms) && request == Truncate(ms, cfg.limit, cfg.keep)
  }

  lemma CutTurnBefore(cfg: Config, maxSteps: int, world: nat -> Turn, from: nat, start: seq<Message>,
                      next: seq<Message>, n: nat, request: seq<Message>)
    requires ValidConfig(cfg) && from < n && IsTurn(cfg, maxSteps, world, from, start, next)
    requires CutHistory(cfg, maxSteps, world, from + 1, next, n, request)
    ensures CutHistory(cfg, maxSteps, world, from, start, n, request)
  {
    var ms :| IsHistory(cfg, maxSteps, world, from + 1, next, n, ms) && request == Truncate(ms, cfg.limit, cfg.keep);
    TurnBefore(cfg, maxSteps, world, from, start, next, n, ms);
  }

  lemma {:induction false} OneRequestAStep(cfg: Config, s: RunState, world: nat -> Turn)
    requires ValidConfig(cfg) && s.status == Running
    ensures s.step + |Requests(cfg, s, world)| == EndStep(s.maxSteps, world, s.step)
    decreases s.maxSteps - s.step
  {
    if Continues(s) {
      var t := Iterate(cfg, s, world(s.step));
      StepInWorldTerms(cfg, s, world(s.step), world);
      if t.status == Running {
        OneRequestAStep(cfg, t, world);
      } else {
        assert Requests(cfg, t, world) == [];
      }
    }
  }

  ghost predicate AreHistories(cfg: Config, maxSteps: int, world: nat -> Turn, from: nat, start: seq<Message>,
                               requests: seq<seq<Message>>)
    requires ValidConfig(cfg)
  {
    forall k | 0 <= k < |requests| :: CutHistory(cfg, maxSteps, world, from, start, from + k, requests[k])
  }

  lemma RequestBefore(cfg: Config, maxSteps: int, world: nat -> Turn, from: nat, start: seq<Message>,
                      next: seq<Message>, rest: seq<seq<Message>>)
    requires ValidConfig(cfg) && IsTurn(cfg, maxSteps, world, from, start, next)
    requires AreHistories(cfg, maxSteps, world, from + 1, next, rest)
    ensures AreHistories(cfg, maxSteps, world, from, start, [Truncate(start, cfg.limit, cfg.keep)] + rest)
  {
    var all := [Truncate(start, cfg.limit, cfg.keep)] + rest;
    forall k | 0 <= k < |all| ensures CutHistory(cfg, maxSteps, world, from, start, from + k, all[k]) {
      if k == 0 {
        NoHistoryYet(cfg, maxSteps, world, from, start);
      } else {
        assert CutHistory(cfg, maxSteps, world, from + 1, next, from + 1 + (k - 1), rest[k - 1]);
        CutTurnBefore(cfg, maxSteps, world, from, start, next, from + k, all[k]);
      }
    }
  }

  lemma RequestsUnfold(cfg: Config, s: RunState, world: nat -> Turn, rest: seq<seq<Message>>)
    requires ValidConfig(cfg) && Continues(s) && rest == Requests(cfg, Iterate(cfg, s, world(s.step)), world)
    ensures Requests(cfg, s, world) == [Truncate(s.messages, cfg.limit, cfg.keep)] + rest
  {
  }

  lemma RequestsBefore(cfg: Config, s: RunState, world: nat -> Turn, rest: seq<seq<Message>>)
    requires ValidConfig(cfg) && Continues(s)
    requires AreHistories(cfg, s.maxSteps, world, s.step + 1, Iterate(cfg, s, world(s.step)).messages, rest)
    ensures AreHistories(cfg, s.maxSteps, world, s.step, s.messages, [Truncate(s.messages, cfg.limit, cfg.keep)] + rest)
  {
    IterateIsTurn(cfg, s, world);
    RequestBefore(cfg, s.maxSteps, world, s.step, s.messages, Iterate(cfg, s, world(s.step)).messages, rest);
  }

  // ... and each request is the history so far with its long tool results cut.
  lemma {:induction false} RequestsAreHistories(cfg: Config, s: RunState, world: nat -> Turn)
    requires ValidConfig(cfg)
    ensures AreHistories(cfg, s.maxSteps, world, s.step, s.messages, Requests(cfg, s, world))
    decreases s.maxSteps - s.step
  {
    if Continues(s) {
      var t := Iterate(cfg, s, world(s.step));
      RequestsAreHistories(cfg, t, world);
      RequestsUnfold(cfg, s, world, Requests(cfg, t, world));
      RequestsBefore(cfg, s, world, Requests(cfg, t, world));
    }
  }

  // The mark of a mid-run compaction is never taken back.
  lemma {:induction false} CompactedStays(cfg: Config, s: RunState, world: nat -> Turn)
    requires s.compacted
    ensures RunFrom(cfg, s, world).compacted
    decreases s.maxSteps - s.step
  {
    if Continues(s) {
      CompactedStays(cfg, Iterate(cfg, s, world(s.step)), world);
    }
  }

  // While nothing is compacted, the run only appends: what it adds is a
  // suffix, and it added nothing exactly if it got no reply.
  lemma {:induction false} RunAppends(cfg: Config, s: RunState, world: nat -> Turn)
    requires !RunFrom(cfg, s, world).compacted
    ensures s.messages <= RunFrom(cfg, s, world).messages
    ensures RunFrom(cfg, s, world).messages == s.messages ==>
              RunFrom(cfg, s, world).finalAssistant == s.finalAssistant
    decreases s.maxSteps - s.step
  {
    if Continues(s) {
      var t := Iterate(cfg, s, world(s.step));
      if t.compacted {
        CompactedStays(cfg, t, world);
      }
      assert world(s.step).chat.ChatReply? ==> |t.messages| > |s.messages|;
      RunAppends(cfg, t, world);
    }
  }

  // Every message a run leaves has a role the session store reads back.
  lemma {:induction false} RunIsConversational(cfg: Config, s: RunState, world: nat -> Turn)
    requires Conversational(s.messages)
    ensures Conversational(RunFrom(cfg, s, world).messages)
    decreases s.maxSteps - s.step
  {
    if Continues(s) {
      RunIsConversational(cfg, Iterate(cfg, s, world(s.step)), world);
    }
  }

  // ---- The loop itself -------------------------------------------------------

  class ExecutionContext {
    var maxSteps: int
    var step: nat
    var messages: seq<Message>
    var status: Status
    var reason: string
    var result: string
    var finalAssistant: seq<ContentBlock>
    var compacted: bool

    constructor (maxSteps: int, messages: seq<Message>)
      ensures View() == RunState(maxSteps, 0, messages, Running, "", "", [], false)
    {
      this.maxSteps, step, this.messages, status := maxSteps, 0, messages, Running;
      reason, result, finalAssistant, compacted := "", "", [], false;
    }

    function View(): RunState
      reads this
    {
      RunState(maxSteps, step, messages, status, reason, result, finalAssistant, compacted)
    }

    method MarkSuccess(text: string)
      modifies this
      ensures View() == old(View()).(status := Success, result := text)
    {
      status, result := Success, text;
    }

    method MarkFailed(why: string, text: string)
      modifies this
      ensures View() == old(View()).(status := Failed, reason := why, result := text)
    {
      status, reason, result := Failed, why, text;
    }
  }

  class Loop {
    const hasCompactor: bool
    const threshold: real
    const budget: ResultBudget

    constructor (hasCompactor: bool, threshold: real, budget: ResultBudget)
      ensures this.hasCompactor == hasCompactor && this.threshold == threshold && this.budget == budget
    {
      this.hasCompactor, this.threshold, this.budget := hasCompactor, threshold, budget;
    }

    function Cfg(): Config
      requires budget.Valid()
      reads budget
    {
      Config(hasCompactor, threshold, budget.toolResultLimit, budget.toolResultKeep)
    }

    // One goroutine per call fills its own slot; they finish in any order.
    method RunTools(uses: seq<ContentBlock>, tool: nat -> ToolOutcome) returns (results: seq<ContentBlock>)
      ensures results == Results(uses, tool)
      ensures |results| == |uses|
      ensures forall i | 0 <= i < |uses| :: results[i] == ToolResultOf(uses[i].id, tool(i).content, tool(i).isError)
    {
      var n := |uses|;
      var slots := new ContentBlock[n](_ => TextOf(""));
      var running: set<nat> := {};
      for k := 0 to n
        invariant forall i: nat :: i in running <==> i < k
      {
        running := running + {k};
      }
      while running != {}
        invariant forall i: nat | i in running :: i < n
        invariant forall i | 0 <= i < n && i !in running ::
          slots[i] == AnswerTo(uses[i], tool(i))
        decreases |running|
      {
        var i: nat :| i in running;
        slots[i] := AnswerTo(uses[i], tool(i));
        running := running - {i};
      }
      results := slots[..];
    }

    method Act(execCtx: ExecutionContext, reply: Reply, tool: nat -> ToolOutcome)
      modifies execCtx
      ensures execCtx.View() == old(execCtx.View()).(messages := old(execCtx.messages) + ActMessages(reply, tool))
      ensures ToolUses(reply.content) != [] && reply.stopReason == "tool_use" ==>
        && |execCtx.messages| == |old(execCtx.messages)| + 1
        && var m := execCtx.messages[|execCtx.messages| - 1];
           && m.role == User && |m.content| == |ToolUses(reply.content)|
           && forall i | 0 <= i < |m.content| ::
                m.content[i] == ToolResultOf(ToolUses(reply.content)[i].id, tool(i).content, tool(i).isError)
    {
      ghost var before := execCtx.messages;
      assert before + [] == before;
      var toolUses := ToolUses(reply.content);
      if reply.stopReason == "tool_use" {
        if |toolUses| == 0 {
          return;
        }
        var results := RunTools(toolUses, tool);
        execCtx.messages := execCtx.messages + [Message(User, results)];
      } else if reply.stopReason == "max_tokens" {
        if |toolUses| == 0 {
          return;
        }
        var results: seq<ContentBlock> := [];
        var i := 0;
        while i < |toolUses|
          invariant 0 <= i <= |toolUses|
          invariant results == LimitResults(toolUses)[..i]
        {
          results := results + [ToolResultOf(toolUses[i].id, LIMIT_ERROR, true)];
          i := i + 1;
        }
        assert results == LimitResults(toolUses);
        execCtx.messages := execCtx.messages + [Message(User, results)];
      }
    }

    method CompactIfNeeded(execCtx: ExecutionContext, reply: Reply, summary: Option<string>)
      modifies execCtx
      ensures execCtx.View() ==
        if hasCompactor && threshold > 0.0 && old(execCtx.status) == Running
           && reply.stopReason == "tool_use" && reply.contextPct >= threshold && summary.Some?
        then old(execCtx.View()).(messages := Summary(summary.value), compacted := true)
        else old(execCtx.View())
    {
      if !hasCompactor || threshold <= 0.0 || execCtx.status != Running {
        return;
      }
      if reply.stopReason != "tool_use" {
        return;
      }
      if reply.contextPct < threshold {
        return;
      }
      match summary {
        case None =>
        case Some(text) =>
          execCtx.messages := Summary(text);
          execCtx.compacted := true;
      }
    }

    // What the loop body does with a reply.
    method HandleReply(execCtx: ExecutionContext, reply: Reply, turn: Turn)
      requires budget.Valid()
      modifies execCtx
      ensures execCtx.View() == AfterReply(Cfg(), old(execCtx.View()), reply, turn)
    {
      execCtx.messages := execCtx.messages + [Message(Assistant, reply.content)];
      execCtx.finalAssistant := reply.content;
      Act(execCtx, reply, turn.tool);
      if reply.stopReason == "end_turn" || reply.stopReason == "" {
        execCtx.MarkSuccess(reply.text);
      } else if execCtx.step >= execCtx.maxSteps {
        execCtx.MarkFailed("exceeded_max_steps", "exceeded max steps");
      }
      CompactIfNeeded(execCtx, reply, turn.summary);
    }

    // One pass through the loop body.
    method RunIteration(execCtx: ExecutionContext, turn: Turn) returns (request: seq<Message>, aborted: bool)
      requires budget.Valid()
      modifies execCtx
      ensures execCtx.View() == Iterate(Cfg(), old(execCtx.View()), turn)
      ensures request == Truncate(old(execCtx.messages), budget.toolResultLimit, budget.toolResultKeep)
      ensures aborted == (turn.chat.ChatError? && turn.chat.cancelled)
    {
      execCtx.step := execCtx.step + 1;
      request := budget.TruncateToolResults(execCtx.messages);
      match turn.chat {
        case ChatError(message, cancelled) =>
          execCtx.MarkFailed(if cancelled then "cancelled" else "llm_error", message);
          aborted := cancelled;
        case ChatReply(reply) =>
          aborted := false;
          HandleReply(execCtx, reply, turn);
      }
    }

    // One more iteration, seen from the run's beginning.
    static lemma Unfold(cfg: Config, s: RunState, world: nat -> Turn)
      requires ValidConfig(cfg) && Continues(s)
      ensures var t := Iterate(cfg, s, world(s.step));
        && RunFrom(cfg, s, world) == RunFrom(cfg, t, world)
        && Requests(cfg, s, world) == [Truncate(s.messages, cfg.limit, cfg.keep)] + Requests(cfg, t, world)
        && (Aborted(cfg, s, world) <==>
              (world(s.step).chat.ChatError? && world(s.step).chat.cancelled) || Aborted(cfg, t, world))
    {
    }

    method Run(execCtx: ExecutionContext, world: nat -> Turn) returns (aborted: bool, requests: seq<seq<Message>>)
      requires budget.Valid()
      modifies execCtx
      ensures execCtx.View() == RunFrom(Cfg(), old(execCtx.View()), world)
      ensures requests == Requests(Cfg(), old(execCtx.View()), world)
      ensures aborted == Aborted(Cfg(), old(execCtx.View()), world)
    {
      requests, aborted := [], false;
      ghost var cfg, start := Cfg(), execCtx.View();
      while execCtx.status == Running && execCtx.step < execCtx.maxSteps
        invariant Cfg() == cfg
        invariant RunFrom(cfg, execCtx.View(), world) == RunFrom(cfg, start, world)
        invariant requests + Requests(cfg, execCtx.View(), world) == Requests(cfg, start, world)
        invariant (aborted || Aborted(cfg, execCtx.View(), world)) == Aborted(cfg, start, world)
        decreases execCtx.maxSteps - execCtx.step
      {
        ghost var before := execCtx.View();
        var request, cancelled := RunIteration(execCtx, world(execCtx.step));
        Unfold(cfg, before, world);
        Assoc(requests, [request], Requests(cfg, execCtx.View(), world));
        requests := requests + [request];
        aborted := aborted || cancelled;
      }
    }
  }
}
