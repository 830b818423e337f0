// Session RPCs that touch the stored conversation
// (internal/transport/handler.go: session.send_message, session.clear,
// session.compact). Requests on one session are serial, as the API asks.
module SessionHandler {
  import opened Basics
  import opened Messages
  import opened SessionStore
  import Loop = AgentLoop
  import Stream = AnthropicStream

  // ---- What one request does to a stored thread ------------------------------

  function UserTurn(content: string): Message {
    NewTextMessage(User, content)
  }

  // The run a message starts: the readable history plus the new message.
  function StartState(maxSteps: int, history: seq<Message>, content: string): Loop.RunState {
    Loop.RunState(maxSteps, 0, history + [UserTurn(content)], Loop.Running, "", "", [], false)
  }

  function RunOf(cfg: Loop.Config, maxSteps: int, history: seq<Message>, content: string,
                 world: nat -> Loop.Turn): Loop.RunState {
    Loop.RunFrom(cfg, StartState(maxSteps, history, content), world)
  }

  // What is stored of a finished run that started with `prefill` messages.
  function NewMessages(prefill: nat, end: Loop.RunState): seq<Message> {
    var added := if !end.compacted && prefill <= |end.messages| then end.messages[prefill..] else [];
    if added == [] && end.finalAssistant != [] then [Message(Assistant, end.finalAssistant)] else added
  }

  // Everything one session.send_message appends.
  function TurnMessages(cfg: Loop.Config, maxSteps: int, history: seq<Message>, content: string,
                        world: nat -> Loop.Turn): seq<Message> {
    [UserTurn(content)] + NewMessages(|history| + 1, RunOf(cfg, maxSteps, history, content, world))
  }

  datatype Op =
    | Send(content: string, world: nat -> Loop.Turn)
    | Clear
    | Compact(summary: Option<string>)   // None: summarising failed

  function Apply(cfg: Loop.Config, maxSteps: int, thread: seq<Message>, op: Op): seq<Message> {
    match op
    case Send(content, world) => thread + TurnMessages(cfg, maxSteps, Trim(thread), content, world)
    case Clear => []
    case Compact(summary) => if summary.Some? then Loop.Summary(summary.value) else thread
  }

  function ApplyAll(cfg: Loop.Config, maxSteps: int, thread: seq<Message>, ops: seq<Op>): seq<Message>
    decreases |ops|
  {
    if ops == [] then thread
    else ApplyAll(cfg, maxSteps, Apply(cfg, maxSteps, thread, ops[0]), ops[1..])
  }

  // ---- Hypotheses ------------------------------------------------------------

  ghost predicate Obeys(op: Op) {
    op.Send? ==> forall k: nat :: Loop.Obeys(op.world(k))
  }

  // The run was compacted on the way, yet the last reply it keeps still calls tools.
  predicate EndsDangling(end: Loop.RunState) {
    end.compacted && UseIdsOf(end.finalAssistant) != []
  }

  ghost predicate Clean(cfg: Loop.Config, maxSteps: int, thread: seq<Message>, op: Op) {
    Obeys(op) && (op.Send? ==> !EndsDangling(RunOf(cfg, maxSteps, Trim(thread), op.content, op.world)))
  }

  ghost predicate AllClean(cfg: Loop.Config, maxSteps: int, thread: seq<Message>, ops: seq<Op>)
    decreases |ops|
  {
    ops == [] || (Clean(cfg, maxSteps, thread, ops[0])
                  && AllClean(cfg, maxSteps, Apply(cfg, maxSteps, thread, ops[0]), ops[1..]))
  }

  // ---- One turn ---------------------------------------------------------------

  lemma UserTurnIsPaired(content: string)
    ensures Paired([UserTurn(content)])
    ensures Asks(UserTurn(content)) == [] && Answers(UserTurn(content)) == []
  {
    assert ResultIdsOf([TextOf(content)]) == [];
    PairedIsFrom([UserTurn(content)]);
  }

  lemma StartIsPaired(history: seq<Message>, content: string)
    requires Paired(history)
    ensures Paired(history + [UserTurn(content)])
  {
    UserTurnIsPaired(content);
    PairedAppend(history, [UserTurn(content)]);
  }

  // What a run without mid-run compaction adds is paired by itself.
  lemma PlainRunIsPaired(cfg: Loop.Config, maxSteps: int, history: seq<Message>, content: string, world: nat -> Loop.Turn)
    requires Paired(history) && forall k: nat :: Loop.Obeys(world(k))
    requires !RunOf(cfg, maxSteps, history, content, world).compacted
    ensures var end := RunOf(cfg, maxSteps, history, content, world);
      && history + [UserTurn(content)] <= end.messages
      && NewMessages(|history| + 1, end) == end.messages[|history| + 1..]
      && Paired(NewMessages(|history| + 1, end))
  {
    var s := StartState(maxSteps, history, content);
    var end := Loop.RunFrom(cfg, s, world);
    StartIsPaired(history, content);
    Loop.RunKeepsPaired(cfg, s, world);
    Loop.RunAppends(cfg, s, world);
    var n := |history| + 1;
    assert s.messages == end.messages[..n];
    assert AsksBefore(end.messages, n) == AsksBefore(s.messages, n) == AnswersAt(s.messages, n);
    PairedPrefix(end.messages, n);
    if end.messages[n..] == [] {
      assert end.messages == s.messages;
    }
  }

  // What a compacted run adds is its final reply alone.
  lemma CompactedRunAdds(end: Loop.RunState, prefill: nat)
    requires end.compacted
    ensures NewMessages(prefill, end)
         == if end.finalAssistant == [] then [] else [Message(Assistant, end.finalAssistant)]
  {
  }

  lemma LoneReply(content: seq<ContentBlock>)
    ensures Pending([Message(Assistant, content)], {}) == Elems(UseIdsOf(content))
    ensures Paired([Message(Assistant, content)]) <==> UseIdsOf(content) == []
  {
    var m := Message(Assistant, content);
    assert [m][1..] == [];
    PendingMessage(m, {});
    PairedIsFrom([m]);
  }

  // The boundary, exactly: a turn leaves a paired thread paired if and only if
  // it is not a compacted run whose last reply still calls tools.
  lemma SendKeepsPaired(cfg: Loop.Config, maxSteps: int, thread: seq<Message>, op: Op)
    requires Paired(thread) && op.Send? && Obeys(op)
    ensures Clean(cfg, maxSteps, thread, op) <==> Paired(Apply(cfg, maxSteps, thread, op))
    ensures Clean(cfg, maxSteps, thread, op) <==> Balanced(Apply(cfg, maxSteps, thread, op))
    ensures !Clean(cfg, maxSteps, thread, op) ==>
              Trim(Apply(cfg, maxSteps, thread, op)) == thread + [UserTurn(op.content)]
  {
    PairedIsBalanced(thread);
    TrimIdentity(thread);
    var end := RunOf(cfg, maxSteps, thread, op.content, op.world);
    var start, added := thread + [UserTurn(op.content)], NewMessages(|thread| + 1, end);
    StartIsPaired(thread, op.content);
    assert Apply(cfg, maxSteps, thread, op) == start + added;
    if end.compacted {
      CompactedRunAdds(end, |thread| + 1);
      LoneReply(end.finalAssistant);
    } else {
      PlainRunIsPaired(cfg, maxSteps, thread, op.content, op.world);
    }
    if EndsDangling(end) {
      PairedIsBalanced(start);
      assert end.finalAssistant != [];
      DanglingReply(start, end.finalAssistant);
    } else {
      PairedAppend(start, added);
      PairedIsBalanced(start + added);
    }
  }

  // A reply that is never answered hides itself, and only itself.
  lemma DanglingReply(start: seq<Message>, content: seq<ContentBlock>)
    requires Balanced(start) && UseIdsOf(content) != []
    ensures !Balanced(start + [Message(Assistant, content)])
    ensures !Paired(start + [Message(Assistant, content)])
    ensures Trim(start + [Message(Assistant, content)]) == start
  {
    var lone := [Message(Assistant, content)];
    LoneReplyTrims(content);
    PendingAppend(start, lone, {});
    TrimDistributes(start, lone);
    if Paired(start + lone) {
      PairedIsBalanced(start + lone);
    }
  }

  lemma LoneReplyTrims(content: seq<ContentBlock>)
    requires UseIdsOf(content) != []
    ensures !Balanced([Message(Assistant, content)])
    ensures Trim([Message(Assistant, content)]) == []
  {
    var lone := [Message(Assistant, content)];
    LoneReply(content);
    assert UseIdsOf(content)[0] in Elems(UseIdsOf(content));
    assert lone[..1] == lone && lone[..0] == [];
    TrimLenUnique(lone, 0);
  }

  // ---- Every sequence of requests ---------------------------------------------

  lemma {:induction false} ThreadStaysPaired(cfg: Loop.Config, maxSteps: int, thread: seq<Message>, ops: seq<Op>)
    requires Paired(thread) && AllClean(cfg, maxSteps, thread, ops)
    ensures Paired(ApplyAll(cfg, maxSteps, thread, ops))
    ensures Trim(ApplyAll(cfg, maxSteps, thread, ops)) == ApplyAll(cfg, maxSteps, thread, ops)
    decreases |ops|
  {
    if ops == [] {
      PairedIsBalanced(thread);
      TrimIdentity(thread);
    } else {
      match ops[0] {
        case Send(_, _) => SendKeepsPaired(cfg, maxSteps, thread, ops[0]);
        case Clear =>
        case Compact(summary) =>
          if summary.Some? {
            Loop.SummaryIsPaired(summary.value);
          }
      }
      ThreadStaysPaired(cfg, maxSteps, Apply(cfg, maxSteps, thread, ops[0]), ops[1..]);
    }
  }

  // The turns a list of messages produces, each from the history before it.
  function Turns(cfg: Loop.Config, maxSteps: int, thread: seq<Message>, sends: seq<Op>): seq<seq<Message>>
    requires forall i | 0 <= i < |sends| :: sends[i].Send?
    decreases |sends|
  {
    if sends == [] then []
    else
      [TurnMessages(cfg, maxSteps, thread, sends[0].content, sends[0].world)]
      + Turns(cfg, maxSteps, Apply(cfg, maxSteps, thread, sends[0]), sends[1..])
  }

  // Since the last clear or compact, the reader gets back every turn, whole
  // and in order, and each run saw all the turns before it.
  lemma {:induction false} ReadsAllTurns(cfg: Loop.Config, maxSteps: int, thread: seq<Message>, sends: seq<Op>)
    requires forall i | 0 <= i < |sends| :: sends[i].Send?
    requires Paired(thread) && AllClean(cfg, maxSteps, thread, sends)
    ensures Trim(ApplyAll(cfg, maxSteps, thread, sends)) == thread + Flatten(Turns(cfg, maxSteps, thread, sends))
    decreases |sends|
  {
    PairedIsBalanced(thread);
    TrimIdentity(thread);
    if sends == [] {
      assert thread + [] == thread;
    } else {
      var next := Apply(cfg, maxSteps, thread, sends[0]);
      SendKeepsPaired(cfg, maxSteps, thread, sends[0]);
      ReadsAllTurns(cfg, maxSteps, next, sends[1..]);
      var first := TurnMessages(cfg, maxSteps, thread, sends[0].content, sends[0].world);
      var rest := Turns(cfg, maxSteps, next, sends[1..]);
      FlattenCons(first, rest);
      Assoc(thread, first, Flatten(rest));
    }
  }

  lemma {:induction false} ApplyAllAppend(cfg: Loop.Config, maxSteps: int, thread: seq<Message>, a: seq<Op>, b: seq<Op>)
    ensures ApplyAll(cfg, maxSteps, thread, a + b) == ApplyAll(cfg, maxSteps, ApplyAll(cfg, maxSteps, thread, a), b)
    decreases |a|
  {
    if a == [] {
      assert a + b == b;
    } else {
      assert (a + b)[1..] == a[1..] + b;
      ApplyAllAppend(cfg, maxSteps, Apply(cfg, maxSteps, thread, a[0]), a[1..], b);
    }
  }

  // What a reset leaves behind.
  function ResetTo(op: Op): seq<Message>
    requires op.Clear? || (op.Compact? && op.summary.Some?)
  {
    if op.Clear? then [] else Loop.Summary(op.summary.value)
  }

  // Whatever happened before a clear or a compact, healthy or not, is forgotten.
  lemma ResetForgets(cfg: Loop.Config, maxSteps: int, thread: seq<Message>, before: seq<Op>, reset: Op, sends: seq<Op>)
    requires reset.Clear? || (reset.Compact? && reset.summary.Some?)
    requires forall i | 0 <= i < |sends| :: sends[i].Send?
    requires AllClean(cfg, maxSteps, ResetTo(reset), sends)
    ensures Trim(ApplyAll(cfg, maxSteps, thread, before + [reset] + sends))
         == ResetTo(reset) + Flatten(Turns(cfg, maxSteps, ResetTo(reset), sends))
  {
    var mid := ApplyAll(cfg, maxSteps, thread, before);
    ApplyAllAppend(cfg, maxSteps, thread, before + [reset], sends);
    ApplyAllAppend(cfg, maxSteps, thread, before, [reset]);
    assert [reset][1..] == [];
    if reset.Compact? {
      Loop.SummaryIsPaired(reset.summary.value);
    }
    ReadsAllTurns(cfg, maxSteps, ResetTo(reset), sends);
  }

  // ---- After a dangling call ------------------------------------------------------

  // No reply of this run reuses the id.
  ghost predicate NeverUses(world: nat -> Loop.Turn, id: string) {
    forall k: nat :: world(k).chat.ChatReply? ==> id !in UseIdsOf(world(k).chat.reply.content)
  }

  ghost predicate NoAnswer(ms: seq<Message>, from: nat, id: string) {
    forall i | from <= i < |ms| :: id !in Answers(ms[i])
  }

  // A run answers only the calls its own replies make.
  lemma {:induction false} RunAnswersOwnCalls(cfg: Loop.Config, s: Loop.RunState, world: nat -> Loop.Turn, from: nat, id: string)
    requires NeverUses(world, id) && NoAnswer(s.messages, from, id)
    requires !Loop.RunFrom(cfg, s, world).compacted
    ensures NoAnswer(Loop.RunFrom(cfg, s, world).messages, from, id)
    decreases s.maxSteps - s.step
  {
    if Loop.Continues(s) {
      var turn := world(s.step);
      var t := Loop.Iterate(cfg, s, turn);
      if t.compacted {
        Loop.CompactedStays(cfg, t, world);
      } else {
        if turn.chat.ChatReply? {
          ActAnswersOwnCalls(turn.chat.reply, turn.tool, id);
        }
        RunAnswersOwnCalls(cfg, t, world, from, id);
      }
    }
  }

  lemma ActAnswersOwnCalls(reply: Loop.Reply, tool: nat -> Loop.ToolOutcome, id: string)
    requires id !in UseIdsOf(reply.content)
    ensures NoAnswer(Loop.ActMessages(reply, tool), 0, id)
  {
    var uses := ToolUses(reply.content);
    if uses != [] && (reply.stopReason == "tool_use" || reply.stopReason == "max_tokens") {
      var results := if reply.stopReason == "tool_use" then Loop.Results(uses, tool) else Loop.LimitResults(uses);
      Loop.ResultsAnswer(reply.content, results);
      assert Loop.ActMessages(reply, tool) == [Message(User, results)];
    }
  }

  lemma TurnNeverAnswers(cfg: Loop.Config, maxSteps: int, history: seq<Message>, op: Op, id: string)
    requires op.Send? && NeverUses(op.world, id)
    ensures NoAnswer(TurnMessages(cfg, maxSteps, history, op.content, op.world), 0, id)
  {
    var s := StartState(maxSteps, history, op.content);
    var end := Loop.RunFrom(cfg, s, op.world);
    UserTurnIsPaired(op.content);
    var added := NewMessages(|history| + 1, end);
    if !end.compacted {
      RunAnswersOwnCalls(cfg, s, op.world, |history|, id);
      Loop.RunAppends(cfg, s, op.world);
      NoAnswerAfter(end.messages, |history|, |history| + 1, id);
    }
    assert NoAnswer(added, 0, id);
    NoAnswerCons(UserTurn(op.content), added, id);
  }

  lemma NoAnswerAfter(ms: seq<Message>, from: nat, cut: nat, id: string)
    requires NoAnswer(ms, from, id) && from <= cut <= |ms|
    ensures NoAnswer(ms[cut..], 0, id)
  {
    forall i | 0 <= i < |ms[cut..]| ensures id !in Answers(ms[cut..][i]) {
      assert ms[cut..][i] == ms[cut + i];
    }
  }

  lemma NoAnswerCons(m: Message, ms: seq<Message>, id: string)
    requires id !in Answers(m) && NoAnswer(ms, 0, id)
    ensures NoAnswer([m] + ms, 0, id)
  {
    forall i | 0 <= i < |[m] + ms| ensures id !in Answers(([m] + ms)[i]) {
      if i > 0 {
        assert ([m] + ms)[i] == ms[i - 1];
      }
    }
  }

  // Once a call is stored unanswered, no turn that does not reuse its id is ever
  // read back: readers are stuck on the same prefix until clear or compact.
  lemma {:induction false} DanglingHidesTurns(cfg: Loop.Config, maxSteps: int, thread: seq<Message>, sends: seq<Op>, id: string)
    requires id in Pending(thread, {})
    requires forall i | 0 <= i < |sends| :: sends[i].Send? && NeverUses(sends[i].world, id)
    ensures Trim(ApplyAll(cfg, maxSteps, thread, sends)) == Trim(thread)
    ensures |Trim(thread)| < |thread|
    ensures id in Pending(ApplyAll(cfg, maxSteps, thread, sends), {})
    decreases |sends|
  {
    OrphanHidesTheRest(thread, [], id);
    if sends != [] {
      var turn := TurnMessages(cfg, maxSteps, Trim(thread), sends[0].content, sends[0].world);
      TurnNeverAnswers(cfg, maxSteps, Trim(thread), sends[0], id);
      OrphanHidesTheRest(thread, turn, id);
      PendingAppend(thread, turn, {});
      UnansweredStaysPending(turn, Pending(thread, {}), id);
      DanglingHidesTurns(cfg, maxSteps, thread + turn, sends[1..], id);
    }
  }

  // ---- Every history a run starts from is paired, dangling calls or not -----------

  ghost predicate Usable(thread: seq<Message>) {
    Paired(thread) || (Pending(thread, {}) != {} && Paired(Trim(thread)))
  }

  // Some outstanding call is not reused by this request.
  ghost predicate KeepsIdsApart(thread: seq<Message>, op: Op) {
    op.Send? && Pending(thread, {}) != {} ==> exists id :: id in Pending(thread, {}) && NeverUses(op.world, id)
  }

  lemma UsableStep(cfg: Loop.Config, maxSteps: int, thread: seq<Message>, op: Op)
    requires Usable(thread) && Obeys(op) && KeepsIdsApart(thread, op)
    ensures Usable(Apply(cfg, maxSteps, thread, op))
    ensures Paired(Trim(thread))
  {
    if Paired(thread) {
      PairedIsBalanced(thread);
      TrimIdentity(thread);
    }
    match op {
      case Clear =>
      case Compact(summary) =>
        if summary.Some? {
          Loop.SummaryIsPaired(summary.value);
        }
      case Send(content, world) =>
        if Paired(thread) {
          SendKeepsPaired(cfg, maxSteps, thread, op);
          if !Clean(cfg, maxSteps, thread, op) {
            StartIsPaired(thread, content);
          }
        } else {
          var id :| id in Pending(thread, {}) && NeverUses(world, id);
          assert [op][1..] == [];
          DanglingHidesTurns(cfg, maxSteps, thread, [op], id);
        }
    }
  }

  ghost predicate AllKeepIdsApart(cfg: Loop.Config, maxSteps: int, thread: seq<Message>, ops: seq<Op>)
    decreases |ops|
  {
    ops == [] || (Obeys(ops[0]) && KeepsIdsApart(thread, ops[0])
                  && AllKeepIdsApart(cfg, maxSteps, Apply(cfg, maxSteps, thread, ops[0]), ops[1..]))
  }

  // Whatever was requested before, the next message starts from a paired
  // history and sends the provider paired requests only.
  lemma {:induction false} EveryRequestIsPaired(cfg: Loop.Config, maxSteps: int, thread: seq<Message>, ops: seq<Op>, next: Op)
    requires Loop.ValidConfig(cfg) && Usable(thread)
    requires AllKeepIdsApart(cfg, maxSteps, thread, ops)
    requires next.Send? && Obeys(next)
    ensures var history := Trim(ApplyAll(cfg, maxSteps, thread, ops));
      && Paired(history)
      && forall r | r in Loop.Requests(cfg, StartState(maxSteps, history, next.content), next.world) ::
           Paired(r) && Paired(Stream.Filtered(r))
    decreases |ops|
  {
    if ops == [] {
      if Paired(thread) {
        PairedIsBalanced(thread);
        TrimIdentity(thread);
      }
      var history := Trim(thread);
      StartIsPaired(history, next.content);
      Loop.RequestsArePaired(cfg, StartState(maxSteps, history, next.content), next.world);
    } else {
      UsableStep(cfg, maxSteps, thread, ops[0]);
      EveryRequestIsPaired(cfg, maxSteps, Apply(cfg, maxSteps, thread, ops[0]), ops[1..], next);
    }
  }

  // In terms of what the model and the compactor do: a run ends so if and only if
  // one of its steps was compacted and the last reply it received calls tools.
  lemma EndsDanglingIff(cfg: Loop.Config, maxSteps: int, history: seq<Message>, content: string, world: nat -> Loop.Turn)
    ensures var n := Loop.EndStep(maxSteps, world, 0);
      EndsDangling(RunOf(cfg, maxSteps, history, content, world)) <==>
        && (exists k | 0 <= k < n :: Loop.CompactsAt(cfg, maxSteps, world, k))
        && UseIdsOf(Loop.LastReply(world, 0, n, [])) != []
  {
    Loop.RunInWorldTerms(cfg, StartState(maxSteps, history, content), world);
  }

  // How a dangling reply arises: the model calls tools, the history is compacted
  // away, and the next model call fails.
  lemma ErrorAfterCompactionDangles(cfg: Loop.Config, maxSteps: int, history: seq<Message>, content: string,
                                    world: nat -> Loop.Turn)
    requires cfg.hasCompactor && cfg.threshold > 0.0 && maxSteps >= 2
    requires world(0).chat.ChatReply? && world(0).summary.Some? && world(1).chat.ChatError?
    requires var reply := world(0).chat.reply;
      reply.stopReason == "tool_use" && reply.contextPct >= cfg.threshold && UseIdsOf(reply.content) != []
    ensures EndsDangling(RunOf(cfg, maxSteps, history, content, world))
  {
    var s0 := StartState(maxSteps, history, content);
    var s1 := Loop.Iterate(cfg, s0, world(0));
    assert s1.compacted && s1.status == Loop.Running && s1.step == 1;
    var s2 := Loop.Iterate(cfg, s1, world(1));
    assert Loop.RunFrom(cfg, s2, world) == s2;
    assert Loop.RunFrom(cfg, s1, world) == s2;
  }

  // ---- The request handlers --------------------------------------------------------

  datatype Mode = OneShot | Chat
  datatype SessionStatus = Active | WaitingForInput | Closed
  datatype Session = Session(mode: Mode, status: SessionStatus, runIds: seq<string>)

  datatype SendResult = SessionNotFound | SessionIsClosed | Finished(end: Loop.RunState, aborted: bool)

  lemma TurnIsConversational(cfg: Loop.Config, maxSteps: int, history: seq<Message>, content: string, world: nat -> Loop.Turn)
    requires Conversational(history)
    ensures Conversational(TurnMessages(cfg, maxSteps, history, content, world))
  {
    Loop.RunIsConversational(cfg, StartState(maxSteps, history, content), world);
  }

  // What one message leaves in its thread: itself, then what its run added, which
  // for a run compacted on the way is its last reply alone.
  lemma TurnSays(cfg: Loop.Config, maxSteps: int, history: seq<Message>, content: string, world: nat -> Loop.Turn)
    ensures var end, turn := RunOf(cfg, maxSteps, history, content, world), TurnMessages(cfg, maxSteps, history, content, world);
      && |turn| >= 1
      && turn[0] == Message(User, [ContentBlock(TextBlock, content, "", "", map[], "", "", false, "", "")])
      && end == Loop.RunFrom(cfg, Loop.RunState(maxSteps, 0, history + [turn[0]], Loop.Running, "", "", [], false), world)
      && (!end.compacted ==> history + turn == end.messages)
      && (end.compacted ==> turn[1..] == if end.finalAssistant == [] then [] else [Message(Assistant, end.finalAssistant)])
  {
    var s, end := StartState(maxSteps, history, content), RunOf(cfg, maxSteps, history, content, world);
    if !end.compacted {
      Loop.RunAppends(cfg, s, world);
      var n := |history| + 1;
      assert s.messages == end.messages[..n];
      assert NewMessages(n, end) == end.messages[n..] by {
        if end.messages[n..] == [] {
          assert end.messages == s.messages;
        }
      }
      Assoc(history, [UserTurn(content)], NewMessages(n, end));
    }
  }

  class SessionService {
    const store: Store
    const loop: Loop.Loop
    const maxSteps: int
    var sessions: map<string, Session>

    constructor (store: Store, loop: Loop.Loop, maxSteps: int)
      ensures this.store == store && this.loop == loop && this.maxSteps == maxSteps && sessions == map[]
    {
      this.store, this.loop, this.maxSteps, sessions := store, loop, maxSteps, map[];
    }

    // The messages a finished run leaves to be stored.
    method MessagesToStore(execCtx: Loop.ExecutionContext, prefillLen: nat) returns (newMessages: seq<Message>)
      requires !execCtx.compacted ==> prefillLen <= |execCtx.messages|
      ensures newMessages == NewMessages(prefillLen, execCtx.View())
    {
      newMessages := [];
      if !execCtx.compacted {
        newMessages := execCtx.messages[prefillLen..];
      }
      if |newMessages| == 0 && |execCtx.finalAssistant| > 0 {
        newMessages := [Message(Assistant, execCtx.finalAssistant)];
      }
    }

    // Reads the history, then stores the user's message.
    method StoreUserTurn(sid: string, content: string) returns (history: seq<Message>)
      modifies store
      ensures history == old(store.History(sid)) && Conversational(history)
      ensures store.Stored(sid) == old(store.Stored(sid)) + [UserTurn(content)]
      ensures forall other | other != sid :: store.Thread(other) == old(store.Thread(other))
      ensures store.backups == old(store.backups)
    {
      history := store.ReadMessages(sid);
      ReadableIsConversational(store.Thread(sid));
      store.AppendMessages(sid, [UserTurn(content)]);
    }

    // Runs the agent and stores what the run added, however it ended.
    method RunAndStore(sid: string, history: seq<Message>, content: string, world: nat -> Loop.Turn)
        returns (end: Loop.RunState, aborted: bool)
      requires loop.budget.Valid() && Conversational(history)
      modifies store
      ensures end == RunOf(loop.Cfg(), maxSteps, history, content, world)
      ensures aborted == Loop.Aborted(loop.Cfg(), StartState(maxSteps, history, content), world)
      ensures store.Stored(sid) == old(store.Stored(sid)) + NewMessages(|history| + 1, end)
      ensures forall other | other != sid :: store.Thread(other) == old(store.Thread(other))
      ensures store.backups == old(store.backups)
    {
      ghost var cfg := loop.Cfg();
      TurnIsConversational(cfg, maxSteps, history, content, world);
      var msgs := history + [UserTurn(content)];
      var execCtx := new Loop.ExecutionContext(maxSteps, msgs);
      var requests;
      aborted, requests := loop.Run(execCtx, world);
      if !execCtx.compacted {
        Loop.RunAppends(cfg, StartState(maxSteps, history, content), world);
      }
      var newMessages := MessagesToStore(execCtx, |msgs|);
      end := execCtx.View();
      assert forall i | 0 <= i < |newMessages| ::
        newMessages[i] == TurnMessages(cfg, maxSteps, history, content, world)[i + 1];
      store.AppendMessages(sid, newMessages);
    }

    method SendMessage(sid: string, content: string, runId: string, world: nat -> Loop.Turn) returns (r: SendResult)
      requires loop.budget.Valid()
      modifies this, store
      ensures r.SessionNotFound? <==> sid !in old(sessions)
      ensures r.SessionIsClosed? <==> sid in old(sessions) && old(sessions)[sid].status == Closed
      ensures !r.Finished? ==> sessions == old(sessions) && store.threads == old(store.threads)
      ensures r.Finished? ==>
        && r.end == RunOf(loop.Cfg(), maxSteps, old(store.History(sid)), content, world)
        && (r.aborted <==> r.end.reason == "cancelled")
        && store.Stored(sid) == Apply(loop.Cfg(), maxSteps, old(store.Stored(sid)), Send(content, world))
        && store.Stored(sid) == old(store.Stored(sid)) + TurnMessages(loop.Cfg(), maxSteps, old(store.History(sid)), content, world)
        && var was := old(sessions)[sid];
           sessions == old(sessions)[sid := Session(was.mode, if was.mode == OneShot then Closed else WaitingForInput, was.runIds + [runId])]
      ensures forall other | other != sid :: store.Thread(other) == old(store.Thread(other))
      ensures store.backups == old(store.backups)
    {
      if sid !in sessions {
        return SessionNotFound;
      }
      var sess := sessions[sid];
      if sess.status == Closed {
        return SessionIsClosed;
      }
      ghost var before := store.Stored(sid);
      var history := StoreUserTurn(sid, content);
      var end, aborted := RunAndStore(sid, history, content, world);
      Loop.AbortedIff(loop.Cfg(), StartState(maxSteps, history, content), world);
      Assoc(before, [UserTurn(content)], NewMessages(|history| + 1, end));
      sess := sess.(runIds := sess.runIds + [runId],
                    status := if sess.mode == OneShot then Closed else WaitingForInput);
      sessions := sessions[sid := sess];
      r := Finished(end, aborted);
    }

    method ClearSession(sid: string)
      modifies this, store
      ensures store.Stored(sid) == []
      ensures store.threads == old(store.threads) - {sid} && store.backups == old(store.backups)
      ensures sessions == if sid in old(sessions) then old(sessions)[sid := old(sessions)[sid].(runIds := [])]
                          else old(sessions)
    {
      store.ClearMessages(sid);
      if sid in sessions {
        sessions := sessions[sid := sessions[sid].(runIds := [])];
      }
    }

    // `summary` is what the provider makes of the history; None is an error.
    method CompactSession(sid: string, summary: Option<string>, renamed: bool) returns (ok: bool)
      requires loop.budget.Valid()
      modifies store
      ensures ok == summary.Some?
      ensures store.Stored(sid) == Apply(loop.Cfg(), maxSteps, old(store.Stored(sid)), Compact(summary))
      ensures ok ==> store.Stored(sid) == [Message(User, [TextOf(summary.value)]),
                                           Message(Assistant, [TextOf("Understood, I'll continue from this summary.")])]
      ensures !ok ==> store.threads == old(store.threads) && store.backups == old(store.backups)
      ensures forall other | other != sid :: store.Thread(other) == old(store.Thread(other))
      ensures ok && renamed && sid in old(store.threads) ==>
                store.backups == old(store.backups) + [(sid, old(store.Thread(sid)))]
    {
      match summary {
        case None => return false;
        case Some(text) =>
          store.WriteCompacted(sid, Loop.Summary(text), renamed);
          ReadableRows(Loop.Summary(text));
          return true;
      }
    }
  }
}
