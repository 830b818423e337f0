// The streaming provider (internal/llm/anthropic.go): message filtering, the
// server-sent-event accumulator and the retry loop around it.
module AnthropicStream {
  import opened Basics
  import opened Messages

  // ---- filterMessages --------------------------------------------------

  predicate KeepBlock(b: ContentBlock) {
    !(b.kind.ThinkingBlock? && b.thinking == "")
  }

  function KeptBlocks(bs: seq<ContentBlock>): seq<ContentBlock> {
    if bs == [] then []
    else
      var n := |bs| - 1;
      KeptBlocks(bs[..n]) + (if KeepBlock(bs[n]) then [bs[n]] else [])
  }

  // Empty thinking blocks go; so does a message that had nothing else.
  function Filtered(ms: seq<Message>): (out: seq<Message>) {
    if ms == [] then []
    else
      var content := KeptBlocks(ms[0].content);
      (if content == [] then [] else [Message(ms[0].role, content)]) + Filtered(ms[1..])
  }

  lemma {:induction false} FilteredAppend(a: seq<Message>, b: seq<Message>)
    ensures Filtered(a + b) == Filtered(a) + Filtered(b)
  {
    if a == [] {
      assert a + b == b;
    } else {
      assert (a + b)[1..] == a[1..] + b;
      FilteredAppend(a[1..], b);
    }
  }

  // Which blocks a request keeps, one by one and in order.
  lemma {:induction false} KeptBlocksAppend(a: seq<ContentBlock>, b: seq<ContentBlock>)
    ensures KeptBlocks(a + b) == KeptBlocks(a) + KeptBlocks(b)
  {
    if b == [] {
      assert a + b == a;
    } else {
      var n := |b| - 1;
      assert (a + b)[..|a + b| - 1] == a + b[..n];
      KeptBlocksAppend(a, b[..n]);
    }
  }

  lemma FilteredOne(m: Message, b: ContentBlock)
    ensures KeptBlocks([b]) == if b.kind == ThinkingBlock && b.thinking == "" then [] else [b]
    ensures Filtered([m]) == if KeptBlocks(m.content) == [] then [] else [Message(m.role, KeptBlocks(m.content))]
  {
    assert [b][..0] == [] && [m][1..] == [];
  }

  lemma {:induction false} KeptBlocksKeepIds(bs: seq<ContentBlock>)
    ensures UseIdsOf(KeptBlocks(bs)) == UseIdsOf(bs)
    ensures ResultIdsOf(KeptBlocks(bs)) == ResultIdsOf(bs)
  {
    if bs != [] {
      var init, last := bs[..|bs| - 1], bs[|bs| - 1];
      assert bs == init + [last];
      KeptBlocksKeepIds(init);
      IdsSnoc(init, last);
      IdsSnoc(KeptBlocks(init), last);
      assert KeptBlocks(init) + [] == KeptBlocks(init);
    }
  }

  lemma {:induction false} FilterKeepsPairedFrom(asked: seq<string>, ms: seq<Message>)
    requires PairedFrom(asked, ms)
    ensures PairedFrom(asked, Filtered(ms))
    decreases |ms|
  {
    if ms != [] {
      KeptBlocksKeepIds(ms[0].content);
      FilterKeepsPairedFrom(Asks(ms[0]), ms[1..]);
      var content := KeptBlocks(ms[0].content);
      if content != [] {
        assert Filtered(ms)[0] == Message(ms[0].role, content);
        assert Filtered(ms)[1..] == Filtered(ms[1..]);
      } else {
        assert Filtered(ms) == Filtered(ms[1..]);
      }
    }
  }

  // What is dropped carries no tool block, so dropping it keeps the pairing.
  lemma FilterKeepsPaired(ms: seq<Message>)
    requires Paired(ms)
    ensures Paired(Filtered(ms))
  {
    PairedIsFrom(ms);
    FilterKeepsPairedFrom([], ms);
    PairedIsFrom(Filtered(ms));
  }

  method FilterContent(blocks: seq<ContentBlock>) returns (content: seq<ContentBlock>)
    ensures content == KeptBlocks(blocks)
    ensures forall b | b in content :: KeepBlock(b)
  {
    content := [];
    var j := 0;
    while j < |blocks|
      invariant 0 <= j <= |blocks|
      invariant content == KeptBlocks(blocks[..j])
      invariant forall b | b in content :: KeepBlock(b)
    {
      assert blocks[..j + 1][..j] == blocks[..j];
      if KeepBlock(blocks[j]) {
        content := content + [blocks[j]];
      }
      j := j + 1;
    }
    assert blocks[..j] == blocks;
  }

  lemma FilteredSnoc(ms: seq<Message>, m: Message)
    ensures Filtered(ms + [m])
         == Filtered(ms) + (if KeptBlocks(m.content) == [] then [] else [Message(m.role, KeptBlocks(m.content))])
  {
    FilteredAppend(ms, [m]);
    assert [m][1..] == [];
  }

  method FilterMessages(messages: seq<Message>) returns (out: seq<Message>)
    ensures out == Filtered(messages)
  {
    out := [];
    var i := 0;
    while i < |messages|
      invariant 0 <= i <= |messages|
      invariant out == Filtered(messages[..i])
    {
      var msg := messages[i];
      var content := FilterContent(msg.content);
      assert messages[..i + 1] == messages[..i] + [msg];
      FilteredSnoc(messages[..i], msg);
      if content != [] {
        out := out + [Message(msg.role, content)];
      }
      i := i + 1;
    }
    assert messages[..i] == messages;
  }

  // ---- parseSSE --------------------------------------------------------

  datatype DeltaKind = TextDelta | ThinkingDelta | SignatureDelta | InputJsonDelta | OtherDelta

  // One line of the stream. Lines without the data prefix, lines that do not
  // decode and event types without an effect are all Ignored.
  datatype StreamEvent =
    | MessageStart(inputTokens: int, cacheRead: int, cacheCreation: int)
    | BlockStart(startIndex: int, block: ContentBlock)
    | BlockDelta(index: int, kind: DeltaKind, piece: string)
    | MessageDelta(stopReason: string, outputTokens: int)
    | StreamError(message: string)
    | Ignored

  datatype Usage = Usage(inputTokens: int, outputTokens: int, cacheRead: int, cacheCreation: int, contextPct: real)

  datatype Response = Response(stopReason: string, text: string, content: seq<ContentBlock>)

  datatype ParseOutcome =
    | Parsed(response: Response, usage: Usage)
    | Permanent(message: string)   // the provider reported an error in the stream
    | Dropped                      // the connection broke

  type Evs = seq<StreamEvent>

  // Positions of the block starts, in order: block i is the one opened at Starts(evs)[i].
  function Starts(evs: Evs): (ps: seq<nat>)
    ensures |ps| <= |evs|
    ensures forall i | 0 <= i < |ps| :: ps[i] < |evs| && evs[ps[i]].BlockStart?
    ensures forall i, j | 0 <= i < j < |ps| :: ps[i] < ps[j]
  {
    if evs == [] then []
    else
      var n := |evs| - 1;
      Starts(evs[..n]) + (if evs[n].BlockStart? then [n] else [])
  }

  // The piece this event adds to block i, if any.
  function PieceOf(e: StreamEvent, i: int, kind: DeltaKind): string {
    if e.BlockDelta? && e.index == i && e.kind == kind then e.piece else ""
  }

  // Everything of one kind that the stream sends for block i.
  function Pieces(evs: Evs, i: int, kind: DeltaKind): string {
    if evs == [] then "" else PieceOf(evs[0], i, kind) + Pieces(evs[1..], i, kind)
  }

  lemma {:induction false} PiecesSnoc(evs: Evs, e: StreamEvent, i: int, kind: DeltaKind)
    ensures Pieces(evs + [e], i, kind) == Pieces(evs, i, kind) + PieceOf(e, i, kind)
  {
    if evs == [] {
      assert evs + [e] == [e];
      assert [e][1..] == [];
    } else {
      assert (evs + [e])[1..] == evs[1..] + [e];
      PiecesSnoc(evs[1..], e, i, kind);
    }
  }

  // ... in the words of the stream.
  lemma PiecesOneMore(evs: Evs, e: StreamEvent, i: int, kind: DeltaKind)
    ensures Pieces([], i, kind) == ""
    ensures Pieces(evs + [e], i, kind)
         == Pieces(evs, i, kind) + (if e.BlockDelta? && e.index == i && e.kind == kind then e.piece else "")
  {
    PiecesSnoc(evs, e, i, kind);
  }

  // No block start is left out.
  lemma {:induction false} StartsAreAll(evs: Evs, k: nat)
    requires k < |evs| && evs[k].BlockStart?
    ensures k in Starts(evs)
  {
    var n := |evs| - 1;
    if k < n {
      StartsAreAll(evs[..n], k);
    }
  }

  // What arrives after block i is opened.
  function Since(evs: Evs, i: nat): Evs
    requires i < |Starts(evs)|
  {
    evs[Starts(evs)[i] + 1..]
  }

  // Block i as the stream describes it, before its input is decoded: what it
  // opened with, followed by its own deltas.
  function BlockSpec(evs: Evs, i: nat): ContentBlock
    requires i < |Starts(evs)|
  {
    var b := evs[Starts(evs)[i]].block;
    b.(text := b.text + Pieces(Since(evs, i), i, TextDelta),
       thinking := b.thinking + Pieces(Since(evs, i), i, ThinkingDelta),
       signature := b.signature + Pieces(Since(evs, i), i, SignatureDelta))
  }

  function BlocksSpec(evs: Evs): (bs: seq<ContentBlock>) {
    seq(|Starts(evs)|, i requires 0 <= i < |Starts(evs)| => BlockSpec(evs, i))
  }

  // What one event does to the JSON buffers when `blocks` blocks are open, and to
  // the counts.
  function BufferStep(m: map<int, string>, blocks: nat, e: StreamEvent): map<int, string> {
    match e
    case BlockStart(k, b) => if b.kind.ToolUseBlock? then m[k := ""] else m
    case BlockDelta(k, InputJsonDelta, s) => if 0 <= k < blocks && k in m then m[k := m[k] + s] else m
    case _ => m
  }

  function UsageStep(u: Usage, e: StreamEvent, contextWindow: int): Usage
    requires contextWindow > 0
  {
    match e
    case MessageStart(a, b, c) => Usage(a, u.outputTokens, b, c, a as real / contextWindow as real)
    case MessageDelta(_, out) => if out > 0 then u.(outputTokens := out) else u
    case _ => u
  }

  // JSON buffers, keyed by the index the start event announced.
  function InputBuffers(evs: Evs): (m: map<int, string>) {
    if evs == [] then map[]
    else
      var n := |evs| - 1;
      BufferStep(InputBuffers(evs[..n]), |Starts(evs[..n])|, evs[n])
  }

  // Non-empty text pieces that reach an open block, in arrival order.
  function Published(evs: Evs): (tokens: seq<string>) {
    if evs == [] then []
    else
      var n := |evs| - 1;
      Published(evs[..n])
      + (if LiveText(evs, n) && evs[n].piece != "" then [evs[n].piece] else [])
  }

  // Event k is a text delta for a block that is already open.
  predicate LiveText(evs: Evs, k: nat)
    requires k < |evs|
  {
    evs[k].BlockDelta? && evs[k].kind == TextDelta && 0 <= evs[k].index < |Starts(evs[..k])|
  }

  function StopReasonOf(evs: Evs): string {
    if evs == [] then "end_turn"
    else
      var n := |evs| - 1;
      if evs[n].MessageDelta? && evs[n].stopReason != "" then evs[n].stopReason else StopReasonOf(evs[..n])
  }

  function UsageOf(evs: Evs, contextWindow: int): Usage
    requires contextWindow > 0
  {
    if evs == [] then Usage(0, 0, 0, 0, 0.0)
    else
      var n := |evs| - 1;
      UsageStep(UsageOf(evs[..n], contextWindow), evs[n], contextWindow)
  }

  function JoinText(bs: seq<ContentBlock>): string {
    if bs == [] then ""
    else JoinText(bs[..|bs| - 1]) + (if bs[|bs| - 1].kind.TextBlock? then bs[|bs| - 1].text else "")
  }

  // Tool input is decoded only from a non-empty buffer that parses.
  function WithInput(b: ContentBlock, i: int, buffers: map<int, string>, decode: string -> Option<Input>): ContentBlock {
    if b.kind.ToolUseBlock? && i in buffers && buffers[i] != "" && decode(buffers[i]).Some?
    then b.(input := decode(buffers[i]).value)
    else b
  }

  function ContentSpec(evs: Evs, decode: string -> Option<Input>): (bs: seq<ContentBlock>) {
    seq(|Starts(evs)|, i requires 0 <= i < |Starts(evs)| => WithInput(BlockSpec(evs, i), i, InputBuffers(evs), decode))
  }

  function ParseSpec(evs: Evs, broken: bool, contextWindow: int, decode: string -> Option<Input>): ParseOutcome
    requires contextWindow > 0
  {
    if FirstError(evs) < |evs| then Permanent(evs[FirstError(evs)].message)
    else if broken then Dropped
    else
      var content := ContentSpec(evs, decode);
      Parsed(Response(StopReasonOf(evs), JoinText(content), content), UsageOf(evs, contextWindow))
  }

  function FirstError(evs: Evs): (n: nat)
    ensures n <= |evs|
    ensures forall i | 0 <= i < n :: !evs[i].StreamError?
    ensures n < |evs| ==> evs[n].StreamError?
  {
    if evs == [] || evs[0].StreamError? then 0 else 1 + FirstError(evs[1..])
  }

  lemma StartsSnoc(evs: Evs, e: StreamEvent)
    ensures Starts(evs + [e]) == Starts(evs) + (if e.BlockStart? then [|evs|] else [])
  {
    assert (evs + [e])[..|evs|] == evs;
  }

  // One more event adds its own piece to what block i has received.
  lemma PiecesSinceSnoc(evs: Evs, e: StreamEvent, i: nat, kind: DeltaKind, opening: string)
    requires i < |Starts(evs)|
    ensures i < |Starts(evs + [e])| && Starts(evs + [e])[i] == Starts(evs)[i]
    ensures opening + Pieces(Since(evs + [e], i), i, kind)
         == opening + Pieces(Since(evs, i), i, kind) + PieceOf(e, i, kind)
  {
    StartsSnoc(evs, e);
    assert Since(evs + [e], i) == Since(evs, i) + [e];
    PiecesSnoc(Since(evs, i), e, i, kind);
    Assoc(opening, Pieces(Since(evs, i), i, kind), PieceOf(e, i, kind));
  }

  // How one more event changes the block it is addressed to, and no other.
  lemma BlockSpecSnoc(evs: Evs, e: StreamEvent, i: nat)
    requires i < |Starts(evs)|
    ensures i < |Starts(evs + [e])|
    ensures var was := BlockSpec(evs, i);
      BlockSpec(evs + [e], i) == was.(text := was.text + PieceOf(e, i, TextDelta),
                                      thinking := was.thinking + PieceOf(e, i, ThinkingDelta),
                                      signature := was.signature + PieceOf(e, i, SignatureDelta))
  {
    var b := evs[Starts(evs)[i]].block;
    PiecesSinceSnoc(evs, e, i, TextDelta, b.text);
    PiecesSinceSnoc(evs, e, i, ThinkingDelta, b.thinking);
    PiecesSinceSnoc(evs, e, i, SignatureDelta, b.signature);
  }

  // The accumulator step: what one event does to the list of blocks.
  function Accumulate(bs: seq<ContentBlock>, e: StreamEvent): seq<ContentBlock> {
    match e
    case BlockStart(_, b) => bs + [b]
    case BlockDelta(i, kind, s) =>
      if i < 0 || i >= |bs| then bs
      else (match kind
            case TextDelta => bs[i := bs[i].(text := bs[i].text + s)]
            case ThinkingDelta => bs[i := bs[i].(thinking := bs[i].thinking + s)]
            case SignatureDelta => bs[i := bs[i].(signature := bs[i].signature + s)]
            case _ => bs)
    case _ => bs
  }

  lemma AccumulateEffect(bs: seq<ContentBlock>, e: StreamEvent, i: nat)
    requires i < |bs|
    ensures i < |Accumulate(bs, e)|
    ensures var b := bs[i];
      Accumulate(bs, e)[i] == b.(text := b.text + PieceOf(e, i, TextDelta),
                                 thinking := b.thinking + PieceOf(e, i, ThinkingDelta),
                                 signature := b.signature + PieceOf(e, i, SignatureDelta))
  {
    var b := bs[i];
    assert b.text + "" == b.text;
    assert b.thinking + "" == b.thinking;
    assert b.signature + "" == b.signature;
  }

  lemma AccumulateAt(evs: Evs, e: StreamEvent, i: nat)
    requires i < |Starts(evs)|
    ensures i < |Starts(evs + [e])|
    ensures BlockSpec(evs + [e], i) == Accumulate(BlocksSpec(evs), e)[i]
  {
    BlockSpecSnoc(evs, e, i);
    AccumulateEffect(BlocksSpec(evs), e, i);
  }

  // The one-pass accumulator computes the per-block specification, whatever
  // the interleaving of blocks and deltas.
  lemma AccumulateIsSpec(evs: Evs, e: StreamEvent)
    ensures BlocksSpec(evs + [e]) == Accumulate(BlocksSpec(evs), e)
  {
    StartsSnoc(evs, e);
    var next := Accumulate(BlocksSpec(evs), e);
    forall i | 0 <= i < |Starts(evs)| ensures BlocksSpec(evs + [e])[i] == next[i] {
      AccumulateAt(evs, e, i);
    }
    if e.BlockStart? {
      OpensAsSent(evs, e);
    }
  }

  lemma OpensAsSent(evs: Evs, e: StreamEvent)
    requires e.BlockStart?
    ensures |Starts(evs + [e])| == |Starts(evs)| + 1
    ensures BlockSpec(evs + [e], |Starts(evs)|) == e.block
  {
    StartsSnoc(evs, e);
    var i := |Starts(evs)|;
    assert Since(evs + [e], i) == [];
    assert e.block.text + "" == e.block.text;
    assert e.block.thinking + "" == e.block.thinking;
    assert e.block.signature + "" == e.block.signature;
  }

  // What the scan loop keeps between two lines.
  datatype Progress = Progress(
    blocks: seq<ContentBlock>,
    inputJSON: map<int, string>,
    stop: string,
    usage: Usage,
    tokens: seq<string>)

  function ProgressSpec(evs: Evs, contextWindow: int): Progress
    requires contextWindow > 0
  {
    Progress(BlocksSpec(evs), InputBuffers(evs), StopReasonOf(evs), UsageOf(evs, contextWindow), Published(evs))
  }

  // How one more event moves each part of that, in terms of the parts alone.
  lemma ProgressSnoc(evs: Evs, e: StreamEvent, contextWindow: int)
    requires contextWindow > 0
    ensures var p, q := ProgressSpec(evs, contextWindow), ProgressSpec(evs + [e], contextWindow);
      && q.blocks == Accumulate(p.blocks, e)
      && q.inputJSON == BufferStep(p.inputJSON, |p.blocks|, e)
      && q.stop == (if e.MessageDelta? && e.stopReason != "" then e.stopReason else p.stop)
      && q.usage == UsageStep(p.usage, e, contextWindow)
      && q.tokens == p.tokens
           + (if e.BlockDelta? && e.kind == TextDelta && 0 <= e.index < |p.blocks| && e.piece != "" then [e.piece] else [])
  {
    AccumulateIsSpec(evs, e);
    BuffersOneMore(evs, e);
    PublishedSnoc(evs, e);
    assert (evs + [e])[..|evs|] == evs;
  }

  // One line of the stream.
  method Advance(p: Progress, e: StreamEvent, contextWindow: int, ghost evs: Evs) returns (q: Progress)
    requires contextWindow > 0 && !e.StreamError?
    requires p == ProgressSpec(evs, contextWindow)
    ensures q == ProgressSpec(evs + [e], contextWindow)
  {
    q := p;
    ProgressSnoc(evs, e, contextWindow);
    match e {
      case MessageStart(a, b, c) =>
        q := q.(usage := Usage(a, p.usage.outputTokens, b, c, a as real / contextWindow as real));
      case BlockStart(index, block) =>
        q := q.(blocks := p.blocks + [block]);
        if block.kind.ToolUseBlock? {
          q := q.(inputJSON := p.inputJSON[index := ""]);
        }
      case BlockDelta(index, kind, piece) =>
        if 0 <= index < |p.blocks| {
          var block := p.blocks[index];
          match kind {
            case TextDelta =>
              q := q.(blocks := p.blocks[index := block.(text := block.text + piece)]);
              if piece != "" {
                q := q.(tokens := p.tokens + [piece]);
              }
            case ThinkingDelta =>
              q := q.(blocks := p.blocks[index := block.(thinking := block.thinking + piece)]);
            case SignatureDelta =>
              q := q.(blocks := p.blocks[index := block.(signature := block.signature + piece)]);
            case InputJsonDelta =>
              if index in p.inputJSON {
                q := q.(inputJSON := p.inputJSON[index := p.inputJSON[index] + piece]);
              }
            case OtherDelta =>
          }
        }
      case MessageDelta(stopReason, out) =>
        if stopReason != "" {
          q := q.(stop := stopReason);
        }
        if out > 0 {
          q := q.(usage := p.usage.(outputTokens := out));
        }
      case Ignored =>
    }
  }

  method DecodeInputs(blocks: seq<ContentBlock>, inputJSON: map<int, string>, decode: string -> Option<Input>)
      returns (out: seq<ContentBlock>)
    ensures |out| == |blocks|
    ensures forall i | 0 <= i < |blocks| :: out[i] == WithInput(blocks[i], i, inputJSON, decode)
  {
    out := blocks;
    var i := 0;
    while i < |blocks|
      invariant 0 <= i <= |blocks| == |out|
      invariant forall j | 0 <= j < i :: out[j] == WithInput(blocks[j], j, inputJSON, decode)
      invariant forall j | i <= j < |blocks| :: out[j] == blocks[j]
    {
      if out[i].kind.ToolUseBlock? && i in inputJSON && |inputJSON[i]| > 0 {
        match decode(inputJSON[i]) {
          case Some(input) => out := out[i := out[i].(input := input)];
          case None =>
        }
      }
      i := i + 1;
    }
  }

  method CollectText(blocks: seq<ContentBlock>) returns (text: string)
    ensures text == JoinText(blocks)
  {
    text := "";
    var i := 0;
    while i < |blocks|
      invariant 0 <= i <= |blocks|
      invariant text == JoinText(blocks[..i])
    {
      assert blocks[..i + 1][..i] == blocks[..i];
      if blocks[i].kind.TextBlock? {
        text := text + blocks[i].text;
      }
      i := i + 1;
    }
    assert blocks[..i] == blocks;
  }

  // The lines up to the first error, if there is one.
  method ReadEvents(events: Evs, contextWindow: int) returns (p: Progress, k: nat)
    requires contextWindow > 0
    ensures k == FirstError(events) && p == ProgressSpec(events[..k], contextWindow)
  {
    p := Progress([], map[], "end_turn", Usage(0, 0, 0, 0, 0.0), []);
    k := 0;
    NoProgressYet(events, contextWindow);
    while k < |events| && !events[k].StreamError?
      invariant 0 <= k <= FirstError(events)
      invariant p == ProgressSpec(events[..k], contextWindow)
    {
      assert events[..k + 1] == events[..k] + [events[k]];
      p := Advance(p, events[k], contextWindow, events[..k]);
      k := k + 1;
    }
  }

  lemma NoProgressYet(events: Evs, contextWindow: int)
    requires contextWindow > 0
    ensures ProgressSpec(events[..0], contextWindow) == Progress([], map[], "end_turn", Usage(0, 0, 0, 0, 0.0), [])
  {
    assert events[..0] == [];
  }

  // `broken` says that reading the stream ended in an error; `publish` that
  // text is reported as it arrives.
  method ParseSSE(events: Evs, broken: bool, publish: bool, contextWindow: int, decode: string -> Option<Input>)
      returns (outcome: ParseOutcome, tokens: seq<string>)
    requires contextWindow > 0
    ensures tokens == if publish then Published(events[..FirstError(events)]) else []
    ensures outcome == ParseSpec(events, broken, contextWindow, decode)
  {
    var p, k := ReadEvents(events, contextWindow);
    tokens := if publish then p.tokens else [];
    if k < |events| {
      return Permanent(events[k].message), tokens;
    }
    if broken {
      return Dropped, tokens;
    }
    assert events[..k] == events;
    var blocks := DecodeInputs(p.blocks, p.inputJSON, decode);
    assert blocks == ContentSpec(events, decode);
    var text := CollectText(blocks);
    outcome := Parsed(Response(p.stop, text, blocks), p.usage);
  }

  // ---- Tool input and published tokens ------------------------------------

  // The provider numbers its blocks 0, 1, 2, ...
  predicate CountsUp(evs: Evs) {
    forall i | 0 <= i < |Starts(evs)| :: evs[Starts(evs)[i]].startIndex == i
  }

  lemma CountsUpSnoc(pre: Evs, e: StreamEvent)
    requires CountsUp(pre + [e])
    ensures CountsUp(pre)
    ensures e.BlockStart? ==> e.startIndex == |Starts(pre)|
  {
    var evs := pre + [e];
    StartsSnoc(pre, e);
    forall i | 0 <= i < |Starts(pre)| ensures pre[Starts(pre)[i]].startIndex == i {
      assert evs[Starts(evs)[i]].startIndex == i;
    }
    if e.BlockStart? {
      assert evs[Starts(evs)[|Starts(pre)|]].startIndex == |Starts(pre)|;
    }
  }

  predicate OpensToolUse(evs: Evs, i: int) {
    0 <= i < |Starts(evs)| && evs[Starts(evs)[i]].block.kind.ToolUseBlock?
  }

  // A JSON buffer exists exactly for the tool_use blocks.
  lemma {:induction false} BuffersAreToolUses(evs: Evs, i: int)
    requires CountsUp(evs)
    ensures i in InputBuffers(evs) <==> OpensToolUse(evs, i)
    decreases |evs|
  {
    if evs != [] {
      var pre, e := evs[..|evs| - 1], evs[|evs| - 1];
      assert evs == pre + [e];
      CountsUpSnoc(pre, e);
      StartsSnoc(pre, e);
      BuffersAreToolUses(pre, i);
    }
  }

  lemma BufferSnoc(pre: Evs, e: StreamEvent, i: nat)
    requires i < |Starts(pre)| && i in InputBuffers(pre)
    requires e.BlockStart? ==> e.startIndex != i
    ensures i in InputBuffers(pre + [e])
    ensures InputBuffers(pre + [e])[i] == InputBuffers(pre)[i] + PieceOf(e, i, InputJsonDelta)
  {
    assert (pre + [e])[..|pre|] == pre;
  }

  lemma BufferStarts(pre: Evs, e: StreamEvent)
    requires e.BlockStart? && e.block.kind.ToolUseBlock? && e.startIndex == |Starts(pre)|
    ensures |Starts(pre)| in InputBuffers(pre + [e]) && InputBuffers(pre + [e])[|Starts(pre)|] == ""
    ensures |Starts(pre + [e])| == |Starts(pre)| + 1 && Since(pre + [e], |Starts(pre)|) == []
  {
    StartsSnoc(pre, e);
    assert (pre + [e])[..|pre|] == pre;
  }

  // ... and holds exactly the JSON pieces sent for that block after it opened.
  lemma {:induction false} InputIsOwnPieces(evs: Evs, i: nat)
    requires CountsUp(evs) && OpensToolUse(evs, i)
    ensures i in InputBuffers(evs)
    ensures InputBuffers(evs)[i] == Pieces(Since(evs, i), i, InputJsonDelta)
    decreases |evs|
  {
    var pre, e := evs[..|evs| - 1], evs[|evs| - 1];
    assert evs == pre + [e];
    CountsUpSnoc(pre, e);
    StartsSnoc(pre, e);
    if i < |Starts(pre)| {
      assert OpensToolUse(pre, i);
      InputIsOwnPieces(pre, i);
      BufferSnoc(pre, e, i);
      PiecesSinceSnoc(pre, e, i, InputJsonDelta, "");
      assert "" + Pieces(Since(evs, i), i, InputJsonDelta) == Pieces(Since(evs, i), i, InputJsonDelta);
      assert "" + Pieces(Since(pre, i), i, InputJsonDelta) == Pieces(Since(pre, i), i, InputJsonDelta);
    } else {
      BufferStarts(pre, e);
    }
  }

  // Without that numbering a buffer is opened under the announced index by each
  // tool_use block and grows by the JSON deltas for it, once that many blocks are open.
  lemma BuffersOneMore(evs: Evs, e: StreamEvent)
    ensures InputBuffers([]) == map[]
    ensures var m := InputBuffers(evs);
      InputBuffers(evs + [e]) ==
        if e.BlockStart? && e.block.kind == ToolUseBlock then m[e.startIndex := ""]
        else if e.BlockDelta? && e.kind == InputJsonDelta && 0 <= e.index < |Starts(evs)| && e.index in m
          then m[e.index := m[e.index] + e.piece]
        else m
  {
    assert (evs + [e])[..|evs|] == evs;
  }

  // ... and block i decodes the buffer under i, if it is a tool_use block.
  lemma ContentDecodes(evs: Evs, i: nat, decode: string -> Option<Input>)
    requires i < |Starts(evs)|
    ensures |ContentSpec(evs, decode)| == |Starts(evs)|
    ensures var first, own, m := evs[Starts(evs)[i]].block, evs[Starts(evs)[i] + 1..], InputBuffers(evs);
      ContentSpec(evs, decode)[i] == first.(
        text := first.text + Pieces(own, i, TextDelta),
        thinking := first.thinking + Pieces(own, i, ThinkingDelta),
        signature := first.signature + Pieces(own, i, SignatureDelta),
        input := if first.kind == ToolUseBlock && i in m && m[i] != "" && decode(m[i]).Some? then decode(m[i]).value
                 else first.input)
  {
    assert ContentSpec(evs, decode)[i] == WithInput(BlockSpec(evs, i), i, InputBuffers(evs), decode);
  }

  lemma InputIsDecoded(evs: Evs, i: nat, decode: string -> Option<Input>)
    requires CountsUp(evs) && i < |Starts(evs)|
    ensures var own := BlockSpec(evs, i);
      var json := Pieces(Since(evs, i), i, InputJsonDelta);
      WithInput(own, i, InputBuffers(evs), decode) ==
        if own.kind.ToolUseBlock? && json != "" && decode(json).Some? then own.(input := decode(json).value) else own
  {
    BuffersAreToolUses(evs, i);
    if OpensToolUse(evs, i) {
      InputIsOwnPieces(evs, i);
    }
  }

  // For streams numbered from 0 the parsed content of block i depends on its
  // own events alone: opening, own deltas in order, decoded own JSON.
  lemma ContentIsPerBlock(evs: Evs, i: nat, decode: string -> Option<Input>)
    requires CountsUp(evs) && i < |Starts(evs)|
    ensures |ContentSpec(evs, decode)| == |Starts(evs)|
    ensures var first, own := evs[Starts(evs)[i]].block, evs[Starts(evs)[i] + 1..];
      var json := Pieces(own, i, InputJsonDelta);
      ContentSpec(evs, decode)[i] == first.(
        text := first.text + Pieces(own, i, TextDelta),
        thinking := first.thinking + Pieces(own, i, ThinkingDelta),
        signature := first.signature + Pieces(own, i, SignatureDelta),
        input := if first.kind == ToolUseBlock && json != "" && decode(json).Some? then decode(json).value else first.input)
  {
    InputIsDecoded(evs, i, decode);
  }

  // ---- The rest of the outcome, event by event -------------------------------

  // The last stop reason given, or "end_turn".
  lemma {:induction false} StopReasonIsLast(evs: Evs, k: nat)
    ensures (forall j | 0 <= j < |evs| :: !(evs[j].MessageDelta? && evs[j].stopReason != "")) ==> StopReasonOf(evs) == "end_turn"
    ensures (k < |evs| && evs[k].MessageDelta? && evs[k].stopReason != ""
             && forall j | k < j < |evs| :: !(evs[j].MessageDelta? && evs[j].stopReason != "")) ==>
      StopReasonOf(evs) == evs[k].stopReason
  {
    if evs != [] {
      StopReasonIsLast(evs[..|evs| - 1], k);
    }
  }

  // Input counts and the context share come from the last message_start, the
  // output count from the last message_delta that has one.
  lemma {:induction false} InputUsageIsLast(evs: Evs, contextWindow: int, k: nat)
    requires contextWindow > 0 && k < |evs| && evs[k].MessageStart?
    requires forall j | k < j < |evs| :: !evs[j].MessageStart?
    ensures var u := UsageOf(evs, contextWindow);
      && u.inputTokens == evs[k].inputTokens && u.cacheRead == evs[k].cacheRead && u.cacheCreation == evs[k].cacheCreation
      && u.contextPct == evs[k].inputTokens as real / contextWindow as real
  {
    if k < |evs| - 1 {
      InputUsageIsLast(evs[..|evs| - 1], contextWindow, k);
    }
  }

  lemma {:induction false} OutputUsageIsLast(evs: Evs, contextWindow: int, k: nat)
    requires contextWindow > 0 && k < |evs| && evs[k].MessageDelta? && evs[k].outputTokens > 0
    requires forall j | k < j < |evs| :: !(evs[j].MessageDelta? && evs[j].outputTokens > 0)
    ensures UsageOf(evs, contextWindow).outputTokens == evs[k].outputTokens
  {
    if k < |evs| - 1 {
      OutputUsageIsLast(evs[..|evs| - 1], contextWindow, k);
    }
  }

  lemma {:induction false} NoUsageIsZero(evs: Evs, contextWindow: int)
    requires contextWindow > 0
    ensures (forall j | 0 <= j < |evs| :: !evs[j].MessageStart?) ==>
      var u := UsageOf(evs, contextWindow);
      u.inputTokens == 0 && u.cacheRead == 0 && u.cacheCreation == 0 && u.contextPct == 0.0
    ensures (forall j | 0 <= j < |evs| :: !(evs[j].MessageDelta? && evs[j].outputTokens > 0)) ==>
      UsageOf(evs, contextWindow).outputTokens == 0
  {
    if evs != [] {
      NoUsageIsZero(evs[..|evs| - 1], contextWindow);
    }
  }

  // The text is that of the text blocks, in order.
  lemma JoinTextSnoc(bs: seq<ContentBlock>, b: ContentBlock)
    ensures JoinText([]) == ""
    ensures JoinText(bs + [b]) == JoinText(bs) + (if b.kind == TextBlock then b.text else "")
  {
    assert (bs + [b])[..|bs|] == bs;
  }

  // A token is published for each non-empty text piece of an open block.
  lemma PublishedSnoc(evs: Evs, e: StreamEvent)
    ensures Published([]) == []
    ensures Published(evs + [e]) == Published(evs)
      + (if e.BlockDelta? && e.kind == TextDelta && 0 <= e.index < |Starts(evs)| && e.piece != "" then [e.piece] else [])
  {
    assert (evs + [e])[..|evs|] == evs;
  }

  // The first error in the stream ends it for good; a broken one may be tried
  // again; otherwise all of it counts.
  lemma ParseSays(evs: Evs, broken: bool, contextWindow: int, decode: string -> Option<Input>, k: nat)
    requires contextWindow > 0
    ensures k < |evs| && evs[k].StreamError? && (forall j | 0 <= j < k :: !evs[j].StreamError?) ==>
      ParseSpec(evs, broken, contextWindow, decode) == Permanent(evs[k].message)
    ensures (forall j | 0 <= j < |evs| :: !evs[j].StreamError?) ==>
      var outcome := ParseSpec(evs, broken, contextWindow, decode);
      if broken then outcome == Dropped
      else
        && outcome.Parsed? && outcome.usage == UsageOf(evs, contextWindow)
        && outcome.response.content == ContentSpec(evs, decode)
        && outcome.response.text == JoinText(outcome.response.content)
        && outcome.response.stopReason == StopReasonOf(evs)
  {
    var first := FirstError(evs);
    if k < |evs| && evs[k].StreamError? && forall j | 0 <= j < k :: !evs[j].StreamError? {
      assert first == k;
    }
  }

  // ---- Published tokens against the final text ------------------------------

  predicate OpensEmpty(evs: Evs) {
    forall k | 0 <= k < |evs| && evs[k].BlockStart? && evs[k].block.kind.TextBlock? :: evs[k].block.text == ""
  }

  // Text goes into text blocks only, and text blocks open empty.
  ghost predicate TextShape(evs: Evs) {
    && OpensEmpty(evs)
    && (forall k | 0 <= k < |evs| && LiveText(evs, k) :: BlocksSpec(evs[..k])[evs[k].index].kind.TextBlock?)
  }

  // ... and it arrives block after block.
  predicate InOrder(evs: Evs) {
    forall j, k | 0 <= j < k < |evs| && LiveText(evs, j) && LiveText(evs, k) :: evs[j].index <= evs[k].index
  }

  ghost predicate InOrderText(evs: Evs) {
    TextShape(evs) && InOrder(evs)
  }

  // No text has arrived for block i or any later one.
  ghost predicate SilentFrom(evs: Evs, i: int) {
    forall j | 0 <= j < |evs| && LiveText(evs, j) :: evs[j].index < i
  }

  lemma LiveTextPrefix(pre: Evs, e: StreamEvent, k: nat)
    requires k < |pre|
    ensures LiveText(pre + [e], k) == LiveText(pre, k)
  {
    assert (pre + [e])[..k] == pre[..k];
  }

  lemma InOrderTextSnoc(pre: Evs, e: StreamEvent)
    requires InOrderText(pre + [e])
    ensures InOrderText(pre)
    ensures LiveText(pre + [e], |pre|) ==>
              BlocksSpec(pre)[e.index].kind.TextBlock? && SilentFrom(pre, e.index + 1)
  {
    var evs := pre + [e];
    assert evs[..|pre|] == pre;
    forall k | 0 <= k < |pre| ensures LiveText(evs, k) == LiveText(pre, k) && evs[..k] == pre[..k] && evs[k] == pre[k] {
      LiveTextPrefix(pre, e, k);
    }
  }

  lemma {:induction false} SilentFromPrefix(pre: Evs, e: StreamEvent, i: nat)
    requires SilentFrom(pre + [e], i) && i < |Starts(pre)|
    ensures SilentFrom(pre, i)
    ensures PieceOf(e, i, TextDelta) == ""
  {
    var evs := pre + [e];
    forall j | 0 <= j < |pre| && LiveText(pre, j) ensures pre[j].index < i {
      LiveTextPrefix(pre, e, j);
      assert LiveText(evs, j) && evs[j].index < i;
    }
    assert evs[..|pre|] == pre;
    assert LiveText(evs, |pre|) ==> evs[|pre|].index < i;
  }

  // A text block nothing was sent to is still empty.
  lemma {:induction false} SilentIsEmpty(evs: Evs, i: nat)
    requires InOrderText(evs) && i < |Starts(evs)| && SilentFrom(evs, i)
    requires BlockSpec(evs, i).kind.TextBlock?
    ensures BlockSpec(evs, i).text == ""
    decreases |evs|
  {
    var pre, e := evs[..|evs| - 1], evs[|evs| - 1];
    assert evs == pre + [e];
    StartsSnoc(pre, e);
    if i < |Starts(pre)| {
      assert SilentFrom(pre, i) && PieceOf(e, i, TextDelta) == "" by { SilentFromPrefix(pre, e, i); }
      assert InOrderText(pre) by { InOrderTextSnoc(pre, e); }
      BlockSpecSnoc(pre, e, i);
      SilentIsEmpty(pre, i);
    } else {
      OpensAsSent(pre, e);
      assert OpensEmpty(evs) && evs[|pre|] == e;
    }
  }

  lemma {:induction false} JoinTextSkips(bs: seq<ContentBlock>, n: nat)
    requires n <= |bs|
    requires forall j | n <= j < |bs| && bs[j].kind.TextBlock? :: bs[j].text == ""
    ensures JoinText(bs) == JoinText(bs[..n])
    decreases |bs|
  {
    if n < |bs| {
      JoinTextSkips(bs[..|bs| - 1], n);
      assert bs[..|bs| - 1][..n] == bs[..n];
    } else {
      assert bs[..n] == bs;
    }
  }

  // Appending to a text block after which all text is empty appends to the text.
  lemma JoinTextExtends(bs: seq<ContentBlock>, i: nat, piece: string)
    requires i < |bs| && bs[i].kind.TextBlock?
    requires forall j | i < j < |bs| && bs[j].kind.TextBlock? :: bs[j].text == ""
    ensures JoinText(bs[i := bs[i].(text := bs[i].text + piece)]) == JoinText(bs) + piece
  {
    var cs := bs[i := bs[i].(text := bs[i].text + piece)];
    JoinTextSkips(bs, i + 1);
    JoinTextSkips(cs, i + 1);
    assert bs[..i + 1][..i] == bs[..i];
    assert cs[..i + 1][..i] == bs[..i];
    Assoc(JoinText(bs[..i]), bs[i].text, piece);
  }

  lemma JoinTextCongruent(bs: seq<ContentBlock>, cs: seq<ContentBlock>)
    requires |bs| == |cs|
    requires forall i | 0 <= i < |bs| :: bs[i].kind == cs[i].kind && bs[i].text == cs[i].text
    ensures JoinText(bs) == JoinText(cs)
  {
    if bs != [] {
      JoinTextCongruent(bs[..|bs| - 1], cs[..|cs| - 1]);
    }
  }

  // One text delta extends what was published and the text alike.
  lemma LiveTextExtends(bs: seq<ContentBlock>, published: seq<string>, e: StreamEvent)
    requires e.BlockDelta? && e.kind == TextDelta && 0 <= e.index < |bs| && bs[e.index].kind.TextBlock?
    requires forall j | e.index < j < |bs| && bs[j].kind.TextBlock? :: bs[j].text == ""
    requires Flatten(published) == JoinText(bs)
    ensures Flatten(published + (if e.piece != "" then [e.piece] else [])) == JoinText(Accumulate(bs, e))
  {
    JoinTextExtends(bs, e.index, e.piece);
    if e.piece == "" {
      assert published + [] == published;
    } else {
      FlattenSnoc(published, e.piece);
    }
  }

  lemma {:induction false} LaterTextsEmpty(pre: Evs, e: StreamEvent)
    requires InOrderText(pre + [e]) && LiveText(pre + [e], |pre|)
    ensures var bs := BlocksSpec(pre);
      && 0 <= e.index < |bs| && bs[e.index].kind.TextBlock?
      && forall j | e.index < j < |bs| && bs[j].kind.TextBlock? :: bs[j].text == ""
  {
    var bs := BlocksSpec(pre);
    InOrderTextSnoc(pre, e);
    assert (pre + [e])[..|pre|] == pre;
    forall j | e.index < j < |bs| && bs[j].kind.TextBlock? ensures bs[j].text == "" {
      SilentIsEmpty(pre, j);
    }
  }

  lemma {:induction false} PublishedIsJoined(evs: Evs)
    requires InOrderText(evs)
    ensures Flatten(Published(evs)) == JoinText(BlocksSpec(evs))
    decreases |evs|
  {
    if evs != [] {
      var pre, e := evs[..|evs| - 1], evs[|evs| - 1];
      assert evs == pre + [e];
      assert InOrderText(pre) by { InOrderTextSnoc(pre, e); }
      PublishedIsJoined(pre);
      AccumulateIsSpec(pre, e);
      assert evs[..|pre|] == pre;
      if LiveText(evs, |pre|) {
        LaterTextsEmpty(pre, e);
        LiveTextExtends(BlocksSpec(pre), Published(pre), e);
      } else {
        assert Published(evs) == Published(pre);
        JoinTextUnmoved(pre, e);
      }
    }
  }

  lemma {:induction false} JoinTextUnmoved(pre: Evs, e: StreamEvent)
    requires InOrderText(pre + [e]) && !LiveText(pre + [e], |pre|)
    ensures JoinText(Accumulate(BlocksSpec(pre), e)) == JoinText(BlocksSpec(pre))
  {
    var bs := BlocksSpec(pre);
    var cs := Accumulate(bs, e);
    assert (pre + [e])[..|pre|] == pre;
    if e.BlockStart? {
      assert cs[..|cs| - 1] == bs;
      assert (pre + [e])[|pre|] == e;
    } else {
      JoinTextCongruent(bs, cs);
    }
  }

  // What the user saw token by token is the text of the response.
  lemma {:induction false} TokensAreTheText(evs: Evs, decode: string -> Option<Input>)
    requires InOrderText(evs)
    ensures Flatten(Published(evs)) == JoinText(ContentSpec(evs, decode))
  {
    PublishedIsJoined(evs);
    JoinTextCongruent(BlocksSpec(evs), ContentSpec(evs, decode));
  }

  // ---- When tokens and text differ --------------------------------------------

  // The same stream with other text pieces.
  function Fill(evs: Evs, pieces: nat -> string): Evs {
    seq(|evs|, k requires 0 <= k < |evs| => FillEvent(evs[k], pieces(k)))
  }

  function FillEvent(e: StreamEvent, piece: string): StreamEvent {
    if e.BlockDelta? && e.kind == TextDelta then e.(piece := piece) else e
  }

  lemma FillPrefix(evs: Evs, pieces: nat -> string, n: nat)
    requires n <= |evs|
    ensures Fill(evs, pieces)[..n] == Fill(evs[..n], pieces)
  {
  }

  lemma {:induction false} FillStarts(evs: Evs, pieces: nat -> string)
    ensures Starts(Fill(evs, pieces)) == Starts(evs)
    decreases |evs|
  {
    if evs != [] {
      var n := |evs| - 1;
      FillPrefix(evs, pieces, n);
      FillStarts(evs[..n], pieces);
    }
  }

  // What matters for the order of text does not depend on the pieces.
  lemma FillAt(evs: Evs, pieces: nat -> string, k: nat)
    requires k < |evs|
    ensures LiveText(Fill(evs, pieces), k) <==> LiveText(evs, k)
    ensures LiveText(evs, k) ==>
      && Fill(evs, pieces)[k].index == evs[k].index && Fill(evs, pieces)[k].piece == pieces(k)
      && BlocksSpec(Fill(evs, pieces)[..k])[evs[k].index].kind == BlocksSpec(evs[..k])[evs[k].index].kind
  {
    FillPrefix(evs, pieces, k);
    FillStarts(evs[..k], pieces);
    var f := Fill(evs, pieces);
    assert f[k] == FillEvent(evs[k], pieces(k)) && Starts(f[..k]) == Starts(evs[..k]);
    if LiveText(evs, k) {
      var p := Starts(evs[..k])[evs[k].index];
      assert f[..k][p] == FillEvent(evs[p], pieces(p)) == evs[..k][p];
    }
  }

  lemma FillKeepsShape(evs: Evs, pieces: nat -> string)
    ensures TextShape(Fill(evs, pieces)) <==> TextShape(evs)
    ensures InOrder(Fill(evs, pieces)) <==> InOrder(evs)
  {
    var f := Fill(evs, pieces);
    forall k | 0 <= k < |evs|
      ensures LiveText(f, k) <==> LiveText(evs, k)
      ensures LiveText(evs, k) ==> f[k].index == evs[k].index
      ensures LiveText(evs, k) ==> BlocksSpec(f[..k])[evs[k].index].kind == BlocksSpec(evs[..k])[evs[k].index].kind
      ensures evs[k].BlockStart? || f[k].BlockStart? ==> f[k] == evs[k]
    {
      FillAt(evs, pieces, k);
      assert f[k] == FillEvent(evs[k], pieces(k));
    }
  }

  // Event t adds no text.
  predicate Quiet(evs: Evs, t: nat)
    requires t < |evs|
  {
    && (evs[t].BlockStart? && evs[t].block.kind.TextBlock? ==> evs[t].block.text == "")
    && (LiveText(evs, t) ==> evs[t].piece == "")
  }

  // Event m writes this text into block i, an open text block.
  predicate Writes(evs: Evs, m: nat, i: nat, text: string) {
    && m < |evs| && LiveText(evs, m) && evs[m].index == i && evs[m].piece == text
    && i < |BlocksSpec(evs[..m])| && BlocksSpec(evs[..m])[i].kind.TextBlock?
  }

  // Two pieces of text only: "b" and then, for an earlier block, "a".
  predicate Swapped(evs: Evs, j: nat, k: nat, lo: nat, hi: nat) {
    && j < k < |evs| && lo < hi && Writes(evs, j, hi, "b") && Writes(evs, k, lo, "a")
    && QuietIn(evs, 0, j) && QuietIn(evs, j + 1, k) && QuietIn(evs, k + 1, |evs|)
  }

  predicate QuietIn(evs: Evs, m: nat, n: nat) {
    n <= |evs| && forall t | m <= t < n :: Quiet(evs, t)
  }

  // Text blocks lo and hi hold these texts, all other text blocks none.
  predicate OnlyTexts(bs: seq<ContentBlock>, lo: nat, hi: nat, atLo: string, atHi: string) {
    && (lo >= |bs| ==> atLo == "") && (hi >= |bs| ==> atHi == "")
    && forall i | 0 <= i < |bs| && bs[i].kind.TextBlock? ::
         bs[i].text == if i == lo then atLo else if i == hi then atHi else ""
  }

  lemma QuietAccumulate(bs: seq<ContentBlock>, e: StreamEvent, lo: nat, hi: nat, atLo: string, atHi: string)
    requires OnlyTexts(bs, lo, hi, atLo, atHi)
    requires e.BlockStart? && e.block.kind.TextBlock? ==> e.block.text == ""
    requires e.BlockDelta? && e.kind == TextDelta && 0 <= e.index < |bs| ==> e.piece == ""
    ensures OnlyTexts(Accumulate(bs, e), lo, hi, atLo, atHi)
  {
    var cs := Accumulate(bs, e);
    forall i | 0 <= i < |bs| ensures cs[i].kind == bs[i].kind && cs[i].text == bs[i].text {
      assert bs[i].text + "" == bs[i].text;
    }
  }

  lemma WriteAccumulate(bs: seq<ContentBlock>, e: StreamEvent, lo: nat, hi: nat, atLo: string, atHi: string)
    requires OnlyTexts(bs, lo, hi, atLo, atHi) && lo < hi
    requires e.BlockDelta? && e.kind == TextDelta && 0 <= e.index < |bs| && bs[e.index].kind.TextBlock?
    requires e.index == lo || e.index == hi
    ensures OnlyTexts(Accumulate(bs, e), lo, hi, if e.index == lo then atLo + e.piece else atLo,
                      if e.index == hi then atHi + e.piece else atHi)
  {
  }

  // The block lists a stream passes through, one per event.
  predicate Builds(evs: Evs, lists: seq<seq<ContentBlock>>) {
    && |lists| == |evs| + 1 && lists[0] == []
    && forall t | 0 <= t < |evs| :: lists[t + 1] == Accumulate(lists[t], evs[t])
  }

  function Lists(evs: Evs): seq<seq<ContentBlock>> {
    seq(|evs| + 1, n requires 0 <= n <= |evs| => BlocksSpec(evs[..n]))
  }

  lemma ListsBuild(evs: Evs)
    ensures Builds(evs, Lists(evs))
  {
    forall t | 0 <= t < |evs| ensures BlocksSpec(evs[..t + 1]) == Accumulate(BlocksSpec(evs[..t]), evs[t]) {
      assert evs[..t + 1] == evs[..t] + [evs[t]];
      AccumulateIsSpec(evs[..t], evs[t]);
    }
  }

  predicate AddsNoText(bs: seq<ContentBlock>, e: StreamEvent) {
    && (e.BlockStart? && e.block.kind.TextBlock? ==> e.block.text == "")
    && (e.BlockDelta? && e.kind == TextDelta && 0 <= e.index < |bs| ==> e.piece == "")
  }

  predicate AddsText(bs: seq<ContentBlock>, e: StreamEvent, i: nat, text: string) {
    e.BlockDelta? && e.kind == TextDelta && e.index == i < |bs| && bs[i].kind.TextBlock? && e.piece == text
  }

  lemma {:induction false} QuietTexts(evs: Evs, lists: seq<seq<ContentBlock>>, m: nat, n: nat, lo: nat, hi: nat,
                                      atLo: string, atHi: string)
    requires Builds(evs, lists) && m <= n <= |evs| && OnlyTexts(lists[m], lo, hi, atLo, atHi)
    requires forall t | m <= t < n :: AddsNoText(lists[t], evs[t])
    ensures OnlyTexts(lists[n], lo, hi, atLo, atHi)
  {
    if m < n {
      QuietTexts(evs, lists, m, n - 1, lo, hi, atLo, atHi);
      assert AddsNoText(lists[n - 1], evs[n - 1]) && lists[n - 1 + 1] == Accumulate(lists[n - 1], evs[n - 1]);
      QuietAccumulate(lists[n - 1], evs[n - 1], lo, hi, atLo, atHi);
    }
  }

  // Quiet events but for two, which write "b" and then "a".
  lemma TwoTexts(evs: Evs, lists: seq<seq<ContentBlock>>, j: nat, k: nat, lo: nat, hi: nat)
    requires Builds(evs, lists) && j < k < |evs| && lo < hi
    requires AddsText(lists[j], evs[j], hi, "b") && AddsText(lists[k], evs[k], lo, "a")
    requires forall t | 0 <= t < |evs| && t != j && t != k :: AddsNoText(lists[t], evs[t])
    ensures OnlyTexts(lists[|evs|], lo, hi, "a", "b")
  {
    assert "" + "b" == "b" && "" + "a" == "a";
    QuietTexts(evs, lists, 0, j, lo, hi, "", "");
    WriteAccumulate(lists[j], evs[j], lo, hi, "", "");
    QuietTexts(evs, lists, j + 1, k, lo, hi, "", "b");
    WriteAccumulate(lists[k], evs[k], lo, hi, "", "b");
    QuietTexts(evs, lists, k + 1, |evs|, lo, hi, "a", "b");
  }

  lemma QuietAddsNoText(evs: Evs, t: nat)
    requires t < |evs| && Quiet(evs, t)
    ensures AddsNoText(BlocksSpec(evs[..t]), evs[t])
  {
  }

  lemma WritesAddText(evs: Evs, m: nat, i: nat, text: string)
    requires Writes(evs, m, i, text)
    ensures AddsText(BlocksSpec(evs[..m]), evs[m], i, text)
  {
  }

  // The lists of such a stream.
  lemma SwappedLists(evs: Evs, j: nat, k: nat, lo: nat, hi: nat)
    requires Swapped(evs, j, k, lo, hi)
    ensures var lists := Lists(evs);
      && Builds(evs, lists)
      && AddsText(lists[j], evs[j], hi, "b") && AddsText(lists[k], evs[k], lo, "a")
      && forall t | 0 <= t < |evs| && t != j && t != k :: AddsNoText(lists[t], evs[t])
  {
    var lists := Lists(evs);
    ListsBuild(evs);
    WritesAddText(evs, j, hi, "b");
    WritesAddText(evs, k, lo, "a");
    forall t | 0 <= t < |evs| && t != j && t != k ensures AddsNoText(lists[t], evs[t]) {
      assert Quiet(evs, t);
      QuietAddsNoText(evs, t);
    }
  }

  // The tokens event n publishes.
  function TokenAt(evs: Evs, n: nat): seq<string>
    requires n < |evs|
  {
    if LiveText(evs, n) && evs[n].piece != "" then [evs[n].piece] else []
  }

  lemma PublishedStep(evs: Evs, n: nat)
    requires n < |evs|
    ensures Published(evs[..n + 1]) == Published(evs[..n]) + TokenAt(evs, n)
  {
    assert evs[..n + 1][..n] == evs[..n];
  }

  // A list that grows by one step's tokens at a time, over steps without any.
  predicate Grows(published: seq<seq<string>>, tokens: seq<seq<string>>) {
    |published| == |tokens| + 1 && forall t | 0 <= t < |tokens| :: published[t + 1] == published[t] + tokens[t]
  }

  lemma {:induction false} QuietRun(published: seq<seq<string>>, tokens: seq<seq<string>>, m: nat, n: nat)
    requires Grows(published, tokens) && m <= n <= |tokens|
    requires forall t | m <= t < n :: tokens[t] == []
    ensures published[n] == published[m]
  {
    if m < n {
      QuietRun(published, tokens, m, n - 1);
      assert published[n - 1 + 1] == published[n - 1] + tokens[n - 1];
    }
  }

  lemma TwoTokens(published: seq<seq<string>>, tokens: seq<seq<string>>, j: nat, k: nat, first: string, second: string)
    requires Grows(published, tokens) && published[0] == [] && j < k < |tokens|
    requires forall t | 0 <= t < |tokens| :: tokens[t] == if t == j then [first] else if t == k then [second] else []
    ensures published[|tokens|] == [first, second]
  {
    QuietRun(published, tokens, 0, j);
    assert published[j + 1] == published[j] + tokens[j];
    QuietRun(published, tokens, j + 1, k);
    assert published[k + 1] == published[k] + tokens[k];
    QuietRun(published, tokens, k + 1, |tokens|);
  }

  lemma SwappedTokenAt(evs: Evs, j: nat, k: nat, lo: nat, hi: nat, t: nat)
    requires Swapped(evs, j, k, lo, hi) && t < |evs|
    ensures TokenAt(evs, t) == if t == j then ["b"] else if t == k then ["a"] else []
  {
    if t != j && t != k {
      assert Quiet(evs, t);
    }
  }

  lemma SwappedTokens(evs: Evs, j: nat, k: nat, lo: nat, hi: nat)
    requires Swapped(evs, j, k, lo, hi)
    ensures Published(evs[..|evs|]) == ["b", "a"]
  {
    var published := seq(|evs| + 1, n requires 0 <= n <= |evs| => Published(evs[..n]));
    var tokens := seq(|evs|, n requires 0 <= n < |evs| => TokenAt(evs, n));
    assert Grows(published, tokens) by {
      forall t | 0 <= t < |evs| ensures published[t + 1] == published[t] + tokens[t] {
        PublishedStep(evs, t);
      }
    }
    forall t | 0 <= t < |evs| ensures tokens[t] == if t == j then ["b"] else if t == k then ["a"] else [] {
      SwappedTokenAt(evs, j, k, lo, hi, t);
    }
    assert published[0] == Published(evs[..0]) == [];
    TwoTokens(published, tokens, j, k, "b", "a");
    assert published[|tokens|] == Published(evs[..|evs|]);
  }

  lemma {:induction false} JoinTextOfNone(bs: seq<ContentBlock>)
    requires forall i | 0 <= i < |bs| && bs[i].kind.TextBlock? :: bs[i].text == ""
    ensures JoinText(bs) == ""
  {
    if bs != [] {
      JoinTextOfNone(bs[..|bs| - 1]);
    }
  }

  lemma {:induction false} JoinTextOfOne(bs: seq<ContentBlock>, lo: nat)
    requires lo < |bs| && bs[lo].kind.TextBlock?
    requires forall i | 0 <= i < |bs| && bs[i].kind.TextBlock? && i != lo :: bs[i].text == ""
    ensures JoinText(bs) == bs[lo].text
  {
    if lo == |bs| - 1 {
      JoinTextOfNone(bs[..lo]);
    } else {
      JoinTextOfOne(bs[..|bs| - 1], lo);
    }
  }

  lemma {:induction false} JoinTextOfTwo(bs: seq<ContentBlock>, lo: nat, hi: nat)
    requires lo < hi < |bs| && bs[lo].kind.TextBlock? && bs[hi].kind.TextBlock?
    requires forall i | 0 <= i < |bs| && bs[i].kind.TextBlock? && i != lo && i != hi :: bs[i].text == ""
    ensures JoinText(bs) == bs[lo].text + bs[hi].text
  {
    if hi == |bs| - 1 {
      JoinTextOfOne(bs[..hi], lo);
    } else {
      JoinTextOfTwo(bs[..|bs| - 1], lo, hi);
    }
  }

  lemma FlattenOfTwo(a: string, b: string)
    ensures Flatten([a, b]) == a + b
  {
    assert [a, b] == [a] + [b] && [b] == [b] + [];
    FlattenCons(a, [b]);
    FlattenCons(b, []);
  }

  lemma TwoTextsJoin(evs: Evs, lists: seq<seq<ContentBlock>>, j: nat, k: nat, lo: nat, hi: nat)
    requires Builds(evs, lists) && j < k < |evs| && lo < hi
    requires AddsText(lists[j], evs[j], hi, "b") && AddsText(lists[k], evs[k], lo, "a")
    requires forall t | 0 <= t < |evs| && t != j && t != k :: AddsNoText(lists[t], evs[t])
    ensures JoinText(lists[|evs|]) == "ab"
  {
    TwoTexts(evs, lists, j, k, lo, hi);
    TextBlockStays(evs, lists, j, |evs|, hi);
    TextBlockStays(evs, lists, k, |evs|, lo);
    JoinTextOfTwo(lists[|evs|], lo, hi);
  }

  lemma SwappedText(evs: Evs, j: nat, k: nat, lo: nat, hi: nat)
    requires Swapped(evs, j, k, lo, hi)
    ensures JoinText(BlocksSpec(evs)) == "ab"
  {
    SwappedLists(evs, j, k, lo, hi);
    TwoTextsJoin(evs, Lists(evs), j, k, lo, hi);
    assert Lists(evs)[|evs|] == BlocksSpec(evs[..|evs|]);
    assert evs[..|evs|] == evs;
  }

  lemma SwappedDiffers(evs: Evs, j: nat, k: nat, lo: nat, hi: nat, decode: string -> Option<Input>)
    requires Swapped(evs, j, k, lo, hi)
    ensures Flatten(Published(evs)) == "ba" && JoinText(ContentSpec(evs, decode)) == "ab"
  {
    assert evs[..|evs|] == evs;
    SwappedTokens(evs, j, k, lo, hi);
    FlattenOfTwo("b", "a");
    SwappedText(evs, j, k, lo, hi);
    JoinTextCongruent(BlocksSpec(evs), ContentSpec(evs, decode));
  }

  lemma {:induction false} TextBlockStays(evs: Evs, lists: seq<seq<ContentBlock>>, m: nat, n: nat, i: nat)
    requires Builds(evs, lists) && m <= n <= |evs| && i < |lists[m]| && lists[m][i].kind.TextBlock?
    ensures i < |lists[n]| && lists[n][i].kind.TextBlock?
  {
    if m < n {
      TextBlockStays(evs, lists, m, n - 1, i);
      assert lists[n - 1 + 1] == Accumulate(lists[n - 1], evs[n - 1]);
    }
  }

  // Filling a stream so that it shows an inverted pair.
  function InvertingPieces(j: nat, k: nat): nat -> string {
    m => if m == j then "b" else if m == k then "a" else ""
  }

  lemma FillSwaps(evs: Evs, j: nat, k: nat)
    requires TextShape(evs) && j < k < |evs| && LiveText(evs, j) && LiveText(evs, k) && evs[k].index < evs[j].index
    ensures Swapped(Fill(evs, InvertingPieces(j, k)), j, k, evs[k].index, evs[j].index)
  {
    var pieces := InvertingPieces(j, k);
    var f := Fill(evs, pieces);
    FillWrites(evs, pieces, j);
    FillWrites(evs, pieces, k);
    forall t | 0 <= t < |f| && t != j && t != k ensures Quiet(f, t) {
      FillAt(evs, pieces, t);
      assert f[t] == FillEvent(evs[t], "");
    }
  }

  lemma FillWrites(evs: Evs, pieces: nat -> string, m: nat)
    requires TextShape(evs) && m < |evs| && LiveText(evs, m)
    ensures Writes(Fill(evs, pieces), m, evs[m].index, pieces(m))
  {
    FillAt(evs, pieces, m);
    assert BlocksSpec(evs[..m])[evs[m].index].kind.TextBlock?;
  }

  ghost predicate SpellsText(evs: Evs, decode: string -> Option<Input>) {
    Flatten(Published(evs)) == JoinText(ContentSpec(evs, decode))
  }

  // Exactly which streams publish their own text whatever its pieces are: those
  // whose text arrives block after block.
  lemma {:induction false} TokensSpellTextIff(evs: Evs, decode: string -> Option<Input>)
    requires TextShape(evs)
    ensures InOrder(evs) <==> forall pieces: nat -> string :: SpellsText(Fill(evs, pieces), decode)
  {
    if InOrder(evs) {
      forall pieces: nat -> string ensures SpellsText(Fill(evs, pieces), decode) {
        FillKeepsShape(evs, pieces);
        TokensAreTheText(Fill(evs, pieces), decode);
      }
    } else {
      var j, k :| 0 <= j < k < |evs| && LiveText(evs, j) && LiveText(evs, k) && evs[j].index > evs[k].index;
      FillSwaps(evs, j, k);
      SwappedDiffers(Fill(evs, InvertingPieces(j, k)), j, k, evs[k].index, evs[j].index, decode);
      assert !SpellsText(Fill(evs, InvertingPieces(j, k)), decode);
    }
  }

  // Two text blocks, the second of which is written first.
  const SWAPPED: Evs := [BlockStart(0, TextOf("")), BlockStart(1, TextOf("")),
                         BlockDelta(1, TextDelta, "b"), BlockDelta(0, TextDelta, "a")]

  lemma {:induction false} SwappedStarts(n: nat)
    requires 2 <= n <= 4
    ensures Starts(SWAPPED[..n]) == [0, 1]
  {
    var s := SWAPPED[..n];
    assert s[..n - 1] == SWAPPED[..n - 1];
    if n > 2 {
      SwappedStarts(n - 1);
    } else {
      assert s[..1] == [SWAPPED[0]];
      assert [SWAPPED[0]][..0] == [];
      assert Starts([SWAPPED[0]]) == [0];
    }
  }

  lemma SwappedWrites(k: nat)
    requires 2 <= k < 4
    ensures Writes(SWAPPED, k, SWAPPED[k].index, SWAPPED[k].piece)
  {
    SwappedStarts(k);
    var i := SWAPPED[k].index;
    assert SWAPPED[..k][i] == SWAPPED[i];
    assert BlocksSpec(SWAPPED[..k])[i].kind == SWAPPED[i].block.kind;
  }

  lemma SwappedCountsUp()
    ensures CountsUp(SWAPPED)
  {
    SwappedStarts(4);
    assert SWAPPED[..4] == SWAPPED;
  }

  // Such a stream: the user reads "ba", the text is "ab".
  lemma TokensCanDiffer(decode: string -> Option<Input>)
    ensures CountsUp(SWAPPED)
    ensures Flatten(Published(SWAPPED)) == "ba"
    ensures JoinText(ContentSpec(SWAPPED, decode)) == "ab"
  {
    SwappedCountsUp();
    SwappedWrites(2);
    SwappedWrites(3);
    assert Quiet(SWAPPED, 0) && Quiet(SWAPPED, 1);
    SwappedDiffers(SWAPPED, 2, 3, 0, 1, decode);
  }

  // ---- The retry loop of Chat ---------------------------------------------

  const MAX_STREAM_RETRIES := 3

  // What happens to one HTTP request.
  datatype Attempt =
    | Unreachable
    | HttpError(status: int)
    | Streamed(events: Evs, broken: bool)

  // Everything outside the program: the fate of each attempt (numbered from 1)
  // and whether the caller has cancelled after it, or during the wait before
  // the next one.
  datatype Network = Network(
    attempt: nat -> Attempt,
    cancelledAfter: nat -> bool,
    cancelledInBackoff: nat -> bool)

  function AttemptSpec(a: Attempt, contextWindow: int, decode: string -> Option<Input>): ParseOutcome
    requires contextWindow > 0
  {
    match a
    case Unreachable => Dropped
    case HttpError(_) => Permanent("http")
    case Streamed(events, broken) => ParseSpec(events, broken, contextWindow, decode)
  }

  // What an attempt reports as it streams.
  function TokensOf(a: Attempt, publish: bool): seq<string> {
    if publish && a.Streamed? then Published(a.events[..FirstError(a.events)]) else []
  }

  datatype ChatResult = ChatOk(response: Response) | ChatFailed

  // An attempt after which Chat tries again, if any attempt is left.
  predicate Retries(net: Network, k: nat, contextWindow: int, decode: string -> Option<Input>)
    requires contextWindow > 0
  {
    AttemptSpec(net.attempt(k), contextWindow, decode).Dropped?
    && !net.cancelledAfter(k) && !net.cancelledInBackoff(k)
  }

  // Only a connection that failed or broke, before the stream reported an error,
  // is tried again, and not once the caller has cancelled.
  lemma RetriesIff(net: Network, k: nat, contextWindow: int, decode: string -> Option<Input>)
    requires contextWindow > 0
    ensures Retries(net, k, contextWindow, decode) <==>
      && (net.attempt(k).Unreachable?
          || (net.attempt(k).Streamed? && net.attempt(k).broken
              && forall j | 0 <= j < |net.attempt(k).events| :: !net.attempt(k).events[j].StreamError?))
      && !net.cancelledAfter(k) && !net.cancelledInBackoff(k)
    ensures AttemptSpec(net.attempt(k), contextWindow, decode).Parsed? <==>
      net.attempt(k).Streamed? && !net.attempt(k).broken
      && forall j | 0 <= j < |net.attempt(k).events| :: !net.attempt(k).events[j].StreamError?
    ensures net.attempt(k).Streamed? ==>
      AttemptSpec(net.attempt(k), contextWindow, decode)
      == ParseSpec(net.attempt(k).events, net.attempt(k).broken, contextWindow, decode)
  {
    if net.attempt(k).Streamed? {
      var evs := net.attempt(k).events;
      assert FirstError(evs) == |evs| <==> forall j | 0 <= j < |evs| :: !evs[j].StreamError?;
    }
  }

  // What is reported as it arrives: all tokens before the stream's first error.
  lemma TokensSay(a: Attempt, k: nat)
    requires a.Streamed? && k <= |a.events|
    requires (forall j | 0 <= j < k :: !a.events[j].StreamError?) && (k < |a.events| ==> a.events[k].StreamError?)
    ensures TokensOf(a, true) == Published(a.events[..k]) && TokensOf(a, false) == []
  {
    assert FirstError(a.events) == k;
  }

  method ChatStream(a: Attempt, publish: bool, contextWindow: int, decode: string -> Option<Input>)
      returns (outcome: ParseOutcome, tokens: seq<string>, usages: seq<Usage>)
    requires contextWindow > 0
    ensures outcome == AttemptSpec(a, contextWindow, decode)
    ensures usages == if outcome.Parsed? then [outcome.usage] else []
    ensures tokens == TokensOf(a, publish)
  {
    tokens, usages := [], [];
    match a {
      case Unreachable => outcome := Dropped;
      case HttpError(_) => outcome := Permanent("http");
      case Streamed(events, broken) =>
        outcome, tokens := ParseSSE(events, broken, publish, contextWindow, decode);
        if outcome.Parsed? {
          usages := [outcome.usage];
        }
    }
  }

  // `usages` and `tokens` are the callbacks made, in order; `tries` the number
  // of requests sent.
  method Chat(net: Network, publish: bool, contextWindow: int, decode: string -> Option<Input>)
      returns (result: ChatResult, tokens: seq<string>, usages: seq<Usage>, tries: nat)
    requires contextWindow > 0
    ensures 1 <= tries <= 3
    ensures forall k | 1 <= k < tries :: Retries(net, k, contextWindow, decode)
    ensures tries < 3 ==> !Retries(net, tries, contextWindow, decode)
    ensures var last := AttemptSpec(net.attempt(tries), contextWindow, decode);
      && (result.ChatOk? <==> last.Parsed?)
      && (result.ChatOk? ==> result.response == last.response && usages == [last.usage])
      && (result.ChatFailed? ==> usages == [])
    ensures tokens == TokensOf(net.attempt(1), publish)
  {
    tokens, usages, tries := [], [], 0;
    var attempt := 1;
    while attempt <= MAX_STREAM_RETRIES
      invariant 1 <= attempt <= MAX_STREAM_RETRIES && tries == attempt - 1
      invariant usages == []
      invariant forall k | 1 <= k < attempt :: Retries(net, k, contextWindow, decode)
      invariant tokens == if attempt > 1 then TokensOf(net.attempt(1), publish) else []
    {
      tries := attempt;
      var outcome, newTokens, newUsages := ChatStream(net.attempt(attempt), publish && attempt == 1, contextWindow, decode);
      tokens, usages := tokens + newTokens, usages + newUsages;
      if outcome.Parsed? {
        return ChatOk(outcome.response), tokens, usages, tries;
      }
      if outcome.Permanent? || net.cancelledAfter(attempt) {
        return ChatFailed, tokens, usages, tries;
      }
      if attempt == MAX_STREAM_RETRIES {
        return ChatFailed, tokens, usages, tries;
      }
      if net.cancelledInBackoff(attempt) {
        return ChatFailed, tokens, usages, tries;
      }
      attempt := attempt + 1;
    }
    assert false;
    result := ChatFailed;
  }
}
