// Conversation messages (internal/llm/message.go) and the two notions of a
// well-formed history: Paired, which the model endpoint demands, and Balanced,
// the weaker pending-set notion the session store computes.
module Messages {
  datatype Role = User | Assistant | OtherRole(name: string)

  datatype BlockType = TextBlock | ThinkingBlock | ToolUseBlock | ToolResultBlock | OtherBlock(name: string)

  // Tool input: a JSON object. A nil input and {} are the same value here,
  // because the encoder writes nil as {}.
  type Input = map<string, string>

  datatype ContentBlock = ContentBlock(
    kind: BlockType,
    text: string,
    id: string,
    name: string,
    input: Input,
    toolUseId: string,
    content: string,
    isError: bool,
    thinking: string,
    signature: string)

  datatype Message = Message(role: Role, content: seq<ContentBlock>)

  // Only roles the session store reads back.
  predicate Conversational(ms: seq<Message>) {
    forall i | 0 <= i < |ms| :: ms[i].role.User? || ms[i].role.Assistant?
  }

  function TextOf(text: string): ContentBlock {
    ContentBlock(TextBlock, text, "", "", map[], "", "", false, "", "")
  }

  function ToolResultOf(toolUseId: string, content: string, isError: bool): ContentBlock {
    ContentBlock(ToolResultBlock, "", "", "", map[], toolUseId, content, isError, "", "")
  }

  function NewTextMessage(role: Role, text: string): Message {
    Message(role, [TextOf(text)])
  }

  // The tool_use blocks of a content list, in order.
  function ToolUses(bs: seq<ContentBlock>): seq<ContentBlock> {
    if bs == [] then []
    else (if bs[0].kind.ToolUseBlock? then [bs[0]] else []) + ToolUses(bs[1..])
  }

  function UseIdsOf(bs: seq<ContentBlock>): (ids: seq<string>) {
    if bs == [] then []
    else (if bs[0].kind.ToolUseBlock? then [bs[0].id] else []) + UseIdsOf(bs[1..])
  }

  function ResultIdsOf(bs: seq<ContentBlock>): (ids: seq<string>) {
    if bs == [] then []
    else (if bs[0].kind.ToolResultBlock? then [bs[0].toolUseId] else []) + ResultIdsOf(bs[1..])
  }

  lemma {:induction false} IdsSnoc(bs: seq<ContentBlock>, b: ContentBlock)
    ensures UseIdsOf(bs + [b]) == UseIdsOf(bs) + (if b.kind.ToolUseBlock? then [b.id] else [])
    ensures ResultIdsOf(bs + [b]) == ResultIdsOf(bs) + (if b.kind.ToolResultBlock? then [b.toolUseId] else [])
  {
    if bs == [] {
      assert bs + [b] == [b];
      assert [b][1..] == [];
    } else {
      assert (bs + [b])[1..] == bs[1..] + [b];
      IdsSnoc(bs[1..], b);
    }
  }

  // The three readings of a content list go block by block, in order.
  lemma {:induction false} ToolUsesAppend(a: seq<ContentBlock>, b: seq<ContentBlock>)
    ensures ToolUses(a + b) == ToolUses(a) + ToolUses(b)
  {
    if a == [] {
      assert a + b == b;
    } else {
      var first := if a[0].kind.ToolUseBlock? then [a[0]] else [];
      assert (a + b)[1..] == a[1..] + b;
      ToolUsesAppend(a[1..], b);
      assert ToolUses(a + b) == first + (ToolUses(a[1..]) + ToolUses(b)) == ToolUses(a) + ToolUses(b);
    }
  }

  lemma ReadingsOfOne(b: ContentBlock)
    ensures ToolUses([b]) == if b.kind == ToolUseBlock then [b] else []
    ensures UseIdsOf([b]) == if b.kind == ToolUseBlock then [b.id] else []
    ensures ResultIdsOf([b]) == if b.kind == ToolResultBlock then [b.toolUseId] else []
  {
    assert [b][1..] == [];
  }

  // Tool calls an assistant message makes; other roles make none.
  function Asks(m: Message): seq<string> {
    if m.role.Assistant? then UseIdsOf(m.content) else []
  }

  // Tool calls a user message answers; other roles answer none.
  function Answers(m: Message): seq<string> {
    if m.role.User? then ResultIdsOf(m.content) else []
  }

  function AsksBefore(ms: seq<Message>, k: nat): seq<string>
    requires k <= |ms|
  {
    if k == 0 then [] else Asks(ms[k - 1])
  }

  function AnswersAt(ms: seq<Message>, k: nat): seq<string>
    requires k <= |ms|
  {
    if k == |ms| then [] else Answers(ms[k])
  }

  // At every gap between messages (and at both ends) the calls made just
  // before it are exactly the calls answered just after it, in order. So every
  // tool_use is answered by the very next message, and no tool_result is stray.
  ghost predicate Paired(ms: seq<Message>) {
    forall k | 0 <= k <= |ms| :: AsksBefore(ms, k) == AnswersAt(ms, k)
  }

  lemma PairedAppend(a: seq<Message>, b: seq<Message>)
    requires Paired(a) && Paired(b)
    ensures Paired(a + b)
  {
    var c := a + b;
    forall k | 0 <= k <= |c| ensures AsksBefore(c, k) == AnswersAt(c, k) {
      if k < |a| {
        assert AsksBefore(a, k) == AnswersAt(a, k);
      } else if k == |a| {
        assert AsksBefore(a, |a|) == AnswersAt(a, |a|) == [];
        assert AsksBefore(b, 0) == AnswersAt(b, 0);
      } else {
        assert AsksBefore(b, k - |a|) == AnswersAt(b, k - |a|);
      }
    }
  }

  // A prefix of a paired history is paired unless it ends on an unanswered call.
  lemma PairedPrefix(ms: seq<Message>, k: nat)
    requires Paired(ms) && k <= |ms| && AsksBefore(ms, k) == []
    ensures Paired(ms[..k]) && Paired(ms[k..])
  {
    var p, q := ms[..k], ms[k..];
    forall j | 0 <= j <= |p| ensures AsksBefore(p, j) == AnswersAt(p, j) {
      assert AsksBefore(ms, j) == AnswersAt(ms, j);
    }
    forall j | 0 <= j <= |q| ensures AsksBefore(q, j) == AnswersAt(q, j) {
      assert AsksBefore(ms, k + j) == AnswersAt(ms, k + j);
    }
  }

  // Paired, read from the front: `asked` is what the message before ms asked.
  predicate PairedFrom(asked: seq<string>, ms: seq<Message>)
    decreases |ms|
  {
    if ms == [] then asked == []
    else Answers(ms[0]) == asked && PairedFrom(Asks(ms[0]), ms[1..])
  }

  lemma {:induction false} PairedFromIs(ms: seq<Message>, k: nat)
    requires k <= |ms|
    ensures PairedFrom(AsksBefore(ms, k), ms[k..])
       <==> forall j | k <= j <= |ms| :: AsksBefore(ms, j) == AnswersAt(ms, j)
    decreases |ms| - k
  {
    if k < |ms| {
      assert ms[k..][0] == ms[k] && ms[k..][1..] == ms[k + 1..];
      PairedFromIs(ms, k + 1);
      assert AsksBefore(ms, k + 1) == Asks(ms[k]);
    }
  }

  lemma PairedIsFrom(ms: seq<Message>)
    ensures Paired(ms) <==> PairedFrom([], ms)
  {
    PairedFromIs(ms, 0);
    assert ms[0..] == ms;
  }

  // ---- The pending set -------------------------------------------------

  function PendingBlock(role: Role, b: ContentBlock, pending: set<string>): set<string> {
    if role.Assistant? && b.kind.ToolUseBlock? then pending + {b.id}
    else if role.User? && b.kind.ToolResultBlock? then pending - {b.toolUseId}
    else pending
  }

  function PendingBlocks(role: Role, bs: seq<ContentBlock>, pending: set<string>): set<string> {
    if bs == [] then pending
    else PendingBlocks(role, bs[1..], PendingBlock(role, bs[0], pending))
  }

  // Calls still unanswered after reading ms, starting from `pending`.
  function Pending(ms: seq<Message>, pending: set<string>): set<string> {
    if ms == [] then pending
    else Pending(ms[1..], PendingBlocks(ms[0].role, ms[0].content, pending))
  }

  predicate Balanced(ms: seq<Message>) {
    Pending(ms, {}) == {}
  }

  ghost function Elems(ids: seq<string>): set<string> {
    set x | x in ids
  }

  lemma {:induction false} PendingBlocksIs(role: Role, bs: seq<ContentBlock>, pending: set<string>)
    ensures PendingBlocks(role, bs, pending)
         == if role.Assistant? then pending + Elems(UseIdsOf(bs))
            else if role.User? then pending - Elems(ResultIdsOf(bs))
            else pending
  {
    if bs != [] {
      PendingBlocksIs(role, bs[1..], PendingBlock(role, bs[0], pending));
    }
  }

  // One message adds the calls it makes and removes the calls it answers.
  lemma PendingMessage(m: Message, pending: set<string>)
    ensures PendingBlocks(m.role, m.content, pending) == pending + Elems(Asks(m)) - Elems(Answers(m))
  {
    PendingBlocksIs(m.role, m.content, pending);
  }

  lemma {:induction false} PendingAppend(a: seq<Message>, b: seq<Message>, pending: set<string>)
    ensures Pending(a + b, pending) == Pending(b, Pending(a, pending))
  {
    if a == [] {
      assert a + b == b;
    } else {
      assert (a + b)[1..] == a[1..] + b;
      PendingAppend(a[1..], b, PendingBlocks(a[0].role, a[0].content, pending));
    }
  }

  lemma PendingSnoc(a: seq<Message>, m: Message, pending: set<string>)
    ensures Pending(a + [m], pending) == Pending(a, pending) + Elems(Asks(m)) - Elems(Answers(m))
  {
    PendingAppend(a, [m], pending);
    assert [m][1..] == [];
    PendingMessage(m, Pending(a, pending));
  }

  // Whose tool blocks count: an assistant's calls, a user's answers.
  lemma {:induction false} AsksSay(m: Message, id: string)
    ensures id in Asks(m) <==>
      m.role == Assistant && exists j | 0 <= j < |m.content| :: m.content[j].kind == ToolUseBlock && m.content[j].id == id
    ensures id in Answers(m) <==>
      m.role == User && exists j | 0 <= j < |m.content| :: m.content[j].kind == ToolResultBlock && m.content[j].toolUseId == id
  {
    IdsSay(m.content, id);
  }

  lemma {:induction false} IdsSay(bs: seq<ContentBlock>, id: string)
    ensures id in UseIdsOf(bs) <==> exists j | 0 <= j < |bs| :: bs[j].kind == ToolUseBlock && bs[j].id == id
    ensures id in ResultIdsOf(bs) <==> exists j | 0 <= j < |bs| :: bs[j].kind == ToolResultBlock && bs[j].toolUseId == id
  {
    if bs != [] {
      IdsSay(bs[1..], id);
      assert forall j | 1 <= j < |bs| :: bs[j] == bs[1..][j - 1];
      assert forall j | 0 <= j < |bs| - 1 :: bs[1..][j] == bs[j + 1];
    }
  }

  // Message k makes a call that no later message answers.
  predicate LeavesOpen(ms: seq<Message>, k: nat, id: string) {
    k < |ms| && id in Asks(ms[k]) && forall j | k < j < |ms| :: id !in Answers(ms[j])
  }

  ghost predicate Unanswered(ms: seq<Message>, id: string) {
    exists k: nat :: LeavesOpen(ms, k, id)
  }

  lemma LeavesOpenSnoc(ms: seq<Message>, m: Message, k: nat, id: string)
    ensures LeavesOpen(ms + [m], k, id) <==>
      (k == |ms| && id in Asks(m)) || (LeavesOpen(ms, k, id) && id !in Answers(m))
  {
    var all := ms + [m];
    assert forall j | 0 <= j < |ms| :: all[j] == ms[j];
    if k < |ms| {
      assert all[|ms|] == m;
    }
  }

  lemma UnansweredSnoc(ms: seq<Message>, m: Message, id: string)
    ensures Unanswered(ms + [m], id) <==> id in Asks(m) || (Unanswered(ms, id) && id !in Answers(m))
  {
    if k: nat :| LeavesOpen(ms + [m], k, id) {
      LeavesOpenSnoc(ms, m, k, id);
    }
    if id in Asks(m) {
      LeavesOpenSnoc(ms, m, |ms|, id);
    }
    if k: nat :| LeavesOpen(ms, k, id) {
      LeavesOpenSnoc(ms, m, k, id);
    }
  }

  // A call is pending exactly if no message after the last that makes it answers it.
  lemma {:induction false} PendingIff(ms: seq<Message>, id: string)
    ensures id in Pending(ms, {}) <==> Unanswered(ms, id)
  {
    if ms != [] {
      var n := |ms| - 1;
      assert ms == ms[..n] + [ms[n]];
      PendingIff(ms[..n], id);
      PendingSnoc(ms[..n], ms[n], {});
      UnansweredSnoc(ms[..n], ms[n], id);
      assert id in Asks(ms[n]) ==> id !in Answers(ms[n]);
    }
  }

  // A message that answers everything asked leaves only its own calls pending:
  // no message both asks and answers.
  lemma AnswersSettle(asked: seq<string>, m: Message)
    requires Answers(m) == asked
    ensures Elems(asked) + Elems(Asks(m)) - Elems(Answers(m)) == Elems(Asks(m))
  {
    if m.role.Assistant? {
      assert Answers(m) == [];
    } else {
      assert Asks(m) == [];
    }
  }

  lemma PairedAt(ms: seq<Message>, k: nat)
    requires Paired(ms) && k <= |ms|
    ensures AsksBefore(ms, k) == AnswersAt(ms, k)
  {
  }

  // In a paired history the pending set at any point is the set of calls the
  // last message made: nothing older is ever outstanding.
  lemma {:induction false} PairedPending(ms: seq<Message>, k: nat)
    requires Paired(ms) && k <= |ms|
    ensures Pending(ms[..k], {}) == Elems(AsksBefore(ms, k))
  {
    if k > 0 {
      var asked, m := AsksBefore(ms, k - 1), ms[k - 1];
      calc {
        Pending(ms[..k], {});
      == { assert ms[..k] == ms[..k - 1] + [m]; PendingSnoc(ms[..k - 1], m, {}); }
        Pending(ms[..k - 1], {}) + Elems(Asks(m)) - Elems(Answers(m));
      == { PairedPending(ms, k - 1); }
        Elems(asked) + Elems(Asks(m)) - Elems(Answers(m));
      == { PairedAt(ms, k - 1); AnswersSettle(asked, m); }
        Elems(Asks(m));
      }
    }
  }

  lemma PairedIsBalanced(ms: seq<Message>)
    requires Paired(ms)
    ensures Balanced(ms)
  {
    PairedPending(ms, |ms|);
    assert ms[..|ms|] == ms;
    assert AsksBefore(ms, |ms|) == AnswersAt(ms, |ms|);
  }

  // A call stays pending for as long as nobody answers it.
  lemma {:induction false} UnansweredStaysPending(ms: seq<Message>, pending: set<string>, id: string)
    requires id in pending
    requires forall i | 0 <= i < |ms| :: id !in Answers(ms[i])
    ensures id in Pending(ms, pending)
  {
    if ms != [] {
      PendingMessage(ms[0], pending);
      UnansweredStaysPending(ms[1..], PendingBlocks(ms[0].role, ms[0].content, pending), id);
    }
  }

  // Ids of the tool_use blocks, read off the blocks themselves.
  lemma {:induction false} ToolUseIdsAligned(bs: seq<ContentBlock>)
    ensures |ToolUses(bs)| == |UseIdsOf(bs)|
    ensures forall i | 0 <= i < |ToolUses(bs)| :: ToolUses(bs)[i].id == UseIdsOf(bs)[i]
  {
    if bs != [] {
      ToolUseIdsAligned(bs[1..]);
    }
  }

  // A list made only of tool results answers their ids in order.
  lemma {:induction false} ResultIdsOfResults(rs: seq<ContentBlock>)
    requires forall i | 0 <= i < |rs| :: rs[i].kind.ToolResultBlock?
    ensures |ResultIdsOf(rs)| == |rs|
    ensures forall i | 0 <= i < |rs| :: ResultIdsOf(rs)[i] == rs[i].toolUseId
  {
    if rs != [] {
      ResultIdsOfResults(rs[1..]);
    }
  }
}
