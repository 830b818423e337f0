// Aggregating a recorded run (internal/trace/reader.go, summarize) and reading
// the outcome of every tool call back from an interleaved trace.
module TraceReader {
  import Invoker = ToolInvoker

  datatype TokenUsage = TokenUsage(inputTokens: int, outputTokens: int, contextPct: real)

  // One decoded line of events.jsonl.
  datatype Line =
    | RunStarted(ts: string, goal: string)
    | RunFinished(ts: string, status: string)
    | UsageLine(ts: string, usage: TokenUsage)
    | ToolStarted(ts: string, id: string, name: string)
    | ToolFinished(ts: string, id: string, elapsed: int)
    | ToolFailed(ts: string, id: string, elapsed: int)
    | SkillInvoked(ts: string, skill: string)
    | OtherLine(ts: string)

  datatype Status = Running | Success | Failed

  datatype ToolSummary = ToolSummary(name: string, id: string, status: Status, elapsed: int)

  datatype RunSummary = RunSummary(
    goal: string,
    status: string,
    startedAt: string,
    finishedAt: string,
    skill: string,
    tokens: TokenUsage,
    tools: seq<ToolSummary>,
    events: seq<Line>)

  const MAX_EVENTS := 100

  predicate IsToolLine(l: Line) {
    l.ToolStarted? || l.ToolFinished? || l.ToolFailed?
  }

  // ---- The loop, line by line ---------------------------------------------------

  datatype Progress = Progress(summary: RunSummary, toolIndex: map<string, nat>)

  predicate InStep(p: Progress) {
    forall id | id in p.toolIndex :: p.toolIndex[id] < |p.summary.tools|
  }

  const START := Progress(
    RunSummary("", "running", "", "", "", TokenUsage(0, 0, 0.0), [], []), map[])

  function Step(p: Progress, l: Line): (q: Progress)
    requires InStep(p)
    ensures InStep(q)
  {
    var s := p.summary;
    var t := if |s.events| < MAX_EVENTS then s.(events := s.events + [l]) else s;
    match l
    case RunStarted(ts, goal) => p.(summary := t.(goal := goal, startedAt := ts))
    case RunFinished(ts, status) =>
      p.(summary := t.(finishedAt := ts, status := if status != "" then status else t.status))
    case UsageLine(_, usage) => p.(summary := t.(tokens := usage))
    case ToolStarted(_, id, name) =>
      Progress(t.(tools := s.tools + [ToolSummary(name, id, Running, 0)]), p.toolIndex[id := |s.tools|])
    case ToolFinished(_, id, elapsed) => p.(summary := t.(tools := Mark(p, id, Success, elapsed)))
    case ToolFailed(_, id, elapsed) => p.(summary := t.(tools := Mark(p, id, Failed, elapsed)))
    case SkillInvoked(_, skill) => p.(summary := t.(skill := skill))
    case OtherLine(_) => p.(summary := t)
  }

  function Mark(p: Progress, id: string, status: Status, elapsed: int): seq<ToolSummary>
    requires InStep(p)
  {
    var tools := p.summary.tools;
    if id in p.toolIndex then
      var i := p.toolIndex[id];
      tools[i := tools[i].(status := status, elapsed := elapsed)]
    else tools
  }

  function Scan(lines: seq<Line>): (p: Progress)
    ensures InStep(p)
  {
    if lines == [] then START else Step(Scan(lines[..|lines| - 1]), lines[|lines| - 1])
  }

  method Summarize(lines: seq<Line>) returns (s: RunSummary)
    ensures s == Scan(lines).summary
  {
    s := START.summary;
    var toolIndex: map<string, nat> := map[];
    var k := 0;
    while k < |lines|
      invariant 0 <= k <= |lines|
      invariant Progress(s, toolIndex) == Scan(lines[..k])
    {
      var l := lines[k];
      assert lines[..k + 1][..k] == lines[..k];
      var events := if |s.events| < MAX_EVENTS then s.events + [l] else s.events;
      match l {
        case RunStarted(ts, goal) =>
          s := s.(goal := goal, startedAt := ts);
        case RunFinished(ts, status) =>
          if status != "" {
            s := s.(status := status);
          }
          s := s.(finishedAt := ts);
        case UsageLine(_, usage) =>
          s := s.(tokens := usage);
        case ToolStarted(_, id, name) =>
          toolIndex := toolIndex[id := |s.tools|];
          s := s.(tools := s.tools + [ToolSummary(name, id, Running, 0)]);
        case ToolFinished(_, id, elapsed) =>
          if id in toolIndex {
            var i := toolIndex[id];
            s := s.(tools := s.tools[i := s.tools[i].(status := Success, elapsed := elapsed)]);
          }
        case ToolFailed(_, id, elapsed) =>
          if id in toolIndex {
            var i := toolIndex[id];
            s := s.(tools := s.tools[i := s.tools[i].(status := Failed, elapsed := elapsed)]);
          }
        case SkillInvoked(_, skill) =>
          s := s.(skill := skill);
        case OtherLine(_) =>
      }
      s := s.(events := events);
      k := k + 1;
    }
    assert lines[..k] == lines;
  }

  // ---- What the summary says ---------------------------------------------------------

  predicate IsLast(lines: seq<Line>, k: nat, kind: Line -> bool) {
    k < |lines| && kind(lines[k]) && forall j | k < j < |lines| :: !kind(lines[j])
  }

  predicate IsNone(lines: seq<Line>, kind: Line -> bool) {
    forall j | 0 <= j < |lines| :: !kind(lines[j])
  }

  // The first hundred lines are kept as they are.
  lemma {:induction false} EventsAreFirst100(lines: seq<Line>)
    ensures Scan(lines).summary.events == if |lines| <= 100 then lines else lines[..100]
  {
    if lines != [] {
      var n := |lines| - 1;
      EventsAreFirst100(lines[..n]);
      assert lines == lines[..n] + [lines[n]];
    }
  }

  // Goal and start are those of the last run.started, the end and the status
  // those of the last run.finished (a status only if it has one); tokens and
  // skill are the last ones recorded.
  lemma {:induction false} StartIsLast(lines: seq<Line>, k: nat)
    ensures var s := Scan(lines).summary;
      && (IsLast(lines, k, (l: Line) => l.RunStarted?) ==> s.goal == lines[k].goal && s.startedAt == lines[k].ts)
      && (IsNone(lines, (l: Line) => l.RunStarted?) ==> s.goal == "" && s.startedAt == "")
  {
    if lines != [] {
      StartIsLast(lines[..|lines| - 1], k);
    }
  }

  lemma {:induction false} EndIsLast(lines: seq<Line>, k: nat)
    ensures var s := Scan(lines).summary;
      && (IsLast(lines, k, (l: Line) => l.RunFinished?) ==> s.finishedAt == lines[k].ts)
      && (IsNone(lines, (l: Line) => l.RunFinished?) ==> s.finishedAt == "")
  {
    if lines != [] {
      EndIsLast(lines[..|lines| - 1], k);
    }
  }

  lemma {:induction false} StatusIsLast(lines: seq<Line>, k: nat)
    ensures var s := Scan(lines).summary;
      && (IsLast(lines, k, (l: Line) => l.RunFinished? && l.status != "") ==> s.status == lines[k].status)
      && (IsNone(lines, (l: Line) => l.RunFinished? && l.status != "") ==> s.status == "running")
  {
    if lines != [] {
      StatusIsLast(lines[..|lines| - 1], k);
    }
  }

  lemma {:induction false} UsageIsLast(lines: seq<Line>, k: nat)
    ensures var s := Scan(lines).summary;
      && (IsLast(lines, k, (l: Line) => l.UsageLine?) ==> s.tokens == lines[k].usage)
      && (IsNone(lines, (l: Line) => l.UsageLine?) ==> s.tokens == TokenUsage(0, 0, 0.0))
      && (IsLast(lines, k, (l: Line) => l.SkillInvoked?) ==> s.skill == lines[k].skill)
      && (IsNone(lines, (l: Line) => l.SkillInvoked?) ==> s.skill == "")
  {
    if lines != [] {
      UsageIsLast(lines[..|lines| - 1], k);
    }
  }

  // ---- Every listed call, in any trace ------------------------------------------------

  // Where calls start, in order.
  function StartsAt(lines: seq<Line>): (ps: seq<nat>)
    ensures |ps| <= |lines| && forall j | 0 <= j < |ps| :: ps[j] < |lines| && lines[ps[j]].ToolStarted?
  {
    if lines == [] then []
    else
      var n := |lines| - 1;
      StartsAt(lines[..n]) + (if lines[n].ToolStarted? then [n] else [])
  }

  // What the lines after a call's start tell of it, until its id starts again.
  function Told(rest: seq<Line>, entry: ToolSummary): ToolSummary {
    if rest == [] then entry
    else
      match rest[0]
      case ToolStarted(_, id, _) => if id == entry.id then entry else Told(rest[1..], entry)
      case ToolFinished(_, id, elapsed) =>
        Told(rest[1..], if id == entry.id then entry.(status := Success, elapsed := elapsed) else entry)
      case ToolFailed(_, id, elapsed) =>
        Told(rest[1..], if id == entry.id then entry.(status := Failed, elapsed := elapsed) else entry)
      case _ => Told(rest[1..], entry)
  }

  predicate StartsAgain(rest: seq<Line>, id: string) {
    exists k | 0 <= k < |rest| :: rest[k].ToolStarted? && rest[k].id == id
  }

  function TellOne(entry: ToolSummary, l: Line): ToolSummary {
    if l.ToolFinished? && l.id == entry.id then entry.(status := Success, elapsed := l.elapsed)
    else if l.ToolFailed? && l.id == entry.id then entry.(status := Failed, elapsed := l.elapsed)
    else entry
  }

  lemma {:induction false} ToldKeepsId(rest: seq<Line>, entry: ToolSummary)
    ensures Told(rest, entry).id == entry.id
    decreases |rest|
  {
    if rest != [] {
      ToldKeepsId(rest[1..], entry);
      ToldKeepsId(rest[1..], TellOne(entry, rest[0]));
    }
  }

  lemma {:induction false} ToldSnoc(rest: seq<Line>, l: Line, entry: ToolSummary)
    ensures Told(rest + [l], entry) == if StartsAgain(rest, entry.id) then Told(rest, entry) else TellOne(Told(rest, entry), l)
    decreases |rest|
  {
    if rest == [] {
      assert rest + [l] == [l] && [l][1..] == [];
    } else {
      assert (rest + [l])[1..] == rest[1..] + [l];
      assert StartsAgain(rest, entry.id) <==>
        (rest[0].ToolStarted? && rest[0].id == entry.id) || StartsAgain(rest[1..], entry.id) by {
        StartsAgainCons(rest, entry.id);
      }
      ToldSnoc(rest[1..], l, TellOne(entry, rest[0]));
      ToldKeepsId(rest[1..], entry);
    }
  }

  lemma StartsAgainCons(rest: seq<Line>, id: string)
    requires rest != []
    ensures StartsAgain(rest, id) <==> (rest[0].ToolStarted? && rest[0].id == id) || StartsAgain(rest[1..], id)
  {
    if k :| 0 <= k < |rest[1..]| && rest[1..][k].ToolStarted? && rest[1..][k].id == id {
      assert rest[k + 1] == rest[1..][k];
    }
    if k :| 0 < k < |rest| && rest[k].ToolStarted? && rest[k].id == id {
      assert rest[1..][k - 1] == rest[k];
    }
  }

  lemma StartsAgainSnoc(rest: seq<Line>, l: Line, id: string)
    ensures StartsAgain(rest + [l], id) <==> StartsAgain(rest, id) || (l.ToolStarted? && l.id == id)
  {
    if k :| 0 <= k < |rest| && rest[k].ToolStarted? && rest[k].id == id {
      assert (rest + [l])[k] == rest[k];
    }
    assert (rest + [l])[|rest|] == l;
  }

  // The entry of the call that starts at line a.
  function EntryOf(lines: seq<Line>, a: nat): ToolSummary
    requires a < |lines| && lines[a].ToolStarted?
  {
    Told(lines[a + 1..], ToolSummary(lines[a].name, lines[a].id, Running, 0))
  }

  // Entry j is right, and is the one its id now stands for unless that id
  // started again.
  predicate Right(lines: seq<Line>, p: Progress, j: nat)
    requires j < |StartsAt(lines)| == |p.summary.tools|
  {
    var a := StartsAt(lines)[j];
    && p.summary.tools[j] == EntryOf(lines, a)
    && lines[a].id in p.toolIndex
    && (p.toolIndex[lines[a].id] == j <==> !StartsAgain(lines[a + 1..], lines[a].id))
  }

  // The index leads to an entry under that id.
  predicate IndexOk(p: Progress) {
    forall id | id in p.toolIndex :: p.toolIndex[id] < |p.summary.tools| && p.summary.tools[p.toolIndex[id]].id == id
  }

  predicate AllRight(lines: seq<Line>, p: Progress) {
    && |p.summary.tools| == |StartsAt(lines)| && IndexOk(p)
    && forall j | 0 <= j < |StartsAt(lines)| :: Right(lines, p, j)
  }

  lemma StartsAtSnoc(lines: seq<Line>, l: Line)
    ensures StartsAt(lines + [l]) == StartsAt(lines) + (if l.ToolStarted? then [|lines|] else [])
  {
    assert (lines + [l])[..|lines|] == lines;
  }

  lemma StepTools(p: Progress, l: Line)
    requires InStep(p) && IndexOk(p)
    ensures IndexOk(Step(p, l))
    ensures |Step(p, l).summary.tools| == |p.summary.tools| + (if l.ToolStarted? then 1 else 0)
    ensures l.ToolStarted? ==>
      && Step(p, l).summary.tools[|p.summary.tools|] == ToolSummary(l.name, l.id, Running, 0)
      && l.id in Step(p, l).toolIndex && Step(p, l).toolIndex[l.id] == |p.summary.tools|
  {
  }

  // What one line does to an entry already there.
  lemma StepEntry(p: Progress, l: Line, j: nat)
    requires InStep(p) && IndexOk(p) && j < |p.summary.tools| && p.summary.tools[j].id in p.toolIndex
    ensures j < |Step(p, l).summary.tools| && p.summary.tools[j].id in Step(p, l).toolIndex
    ensures var entry := p.summary.tools[j];
      && Step(p, l).summary.tools[j] == (if p.toolIndex[entry.id] == j then TellOne(entry, l) else entry)
      && (Step(p, l).toolIndex[entry.id] == j <==> p.toolIndex[entry.id] == j && !(l.ToolStarted? && l.id == entry.id))
  {
  }

  lemma OldEntryTold(lines: seq<Line>, l: Line, a: nat)
    requires a < |lines| && lines[a].ToolStarted?
    ensures EntryOf(lines, a).id == lines[a].id && (lines + [l])[a] == lines[a]
    ensures EntryOf(lines + [l], a)
         == if StartsAgain(lines[a + 1..], lines[a].id) then EntryOf(lines, a) else TellOne(EntryOf(lines, a), l)
    ensures StartsAgain((lines + [l])[a + 1..], lines[a].id)
       <==> StartsAgain(lines[a + 1..], lines[a].id) || (l.ToolStarted? && l.id == lines[a].id)
  {
    var first := ToolSummary(lines[a].name, lines[a].id, Running, 0);
    assert (lines + [l])[a + 1..] == lines[a + 1..] + [l];
    ToldSnoc(lines[a + 1..], l, first);
    ToldKeepsId(lines[a + 1..], first);
    StartsAgainSnoc(lines[a + 1..], l, lines[a].id);
  }

  lemma NewEntryTold(lines: seq<Line>, l: Line)
    requires l.ToolStarted?
    ensures (lines + [l])[|lines|] == l && EntryOf(lines + [l], |lines|) == ToolSummary(l.name, l.id, Running, 0)
    ensures !StartsAgain((lines + [l])[|lines| + 1..], l.id)
  {
    assert (lines + [l])[|lines| + 1..] == [];
  }

  lemma {:induction false} StepIsRight(lines: seq<Line>, p: Progress, l: Line)
    requires InStep(p) && AllRight(lines, p)
    ensures AllRight(lines + [l], Step(p, l))
  {
    StartsAtSnoc(lines, l);
    StepTools(p, l);
    var q, more := Step(p, l), lines + [l];
    forall j | 0 <= j < |StartsAt(more)| ensures Right(more, q, j) {
      if j < |StartsAt(lines)| {
        assert Right(lines, p, j);
        OldEntryTold(lines, l, StartsAt(lines)[j]);
        StepEntry(p, l, j);
      } else {
        NewEntryTold(lines, l);
      }
    }
  }

  // In any trace, ids reused or not: one entry for each start, in order, told by
  // the results that follow under its id until that id starts again.
  lemma {:induction false} ToolsAreTold(lines: seq<Line>)
    ensures AllRight(lines, Scan(lines))
    ensures |Scan(lines).summary.tools| == |StartsAt(lines)|
    ensures forall j | 0 <= j < |StartsAt(lines)| :: Scan(lines).summary.tools[j] == EntryOf(lines, StartsAt(lines)[j])
  {
    if lines != [] {
      var n := |lines| - 1;
      assert lines == lines[..n] + [lines[n]];
      ToolsAreTold(lines[..n]);
      StepIsRight(lines[..n], Scan(lines[..n]), lines[n]);
    }
    forall j | 0 <= j < |StartsAt(lines)| ensures Scan(lines).summary.tools[j] == EntryOf(lines, StartsAt(lines)[j]) {
      assert Right(lines, Scan(lines), j);
    }
  }

  // ---- Reading calls back ---------------------------------------------------------

  // The lines about one call, in trace order.
  function Own(lines: seq<Line>, id: string): seq<Line> {
    if lines == [] then []
    else
      var n := |lines| - 1;
      Own(lines[..n], id) + (if IsToolLine(lines[n]) && lines[n].id == id then [lines[n]] else [])
  }

  // Ids in the order their calls started.
  function StartOrder(lines: seq<Line>): seq<string> {
    if lines == [] then []
    else
      var n := |lines| - 1;
      StartOrder(lines[..n]) + (if lines[n].ToolStarted? then [lines[n].id] else [])
  }

  // A call's own lines: one start, first, then anything else.
  predicate StartsOnce(own: seq<Line>) {
    own != [] ==> own[0].ToolStarted? && forall k | 1 <= k < |own| :: !own[k].ToolStarted?
  }

  predicate Begun(own: seq<Line>) {
    own != [] && own[0].ToolStarted? && IsToolLine(own[|own| - 1])
  }

  // What a reader should report for a call of which it has seen these lines:
  // what the last of them says.
  function Reported(own: seq<Line>): ToolSummary
    requires Begun(own)
  {
    var last := own[|own| - 1];
    ToolSummary(own[0].name, own[0].id,
                if last.ToolFinished? then Success else if last.ToolFailed? then Failed else Running,
                if last.ToolStarted? then 0 else last.elapsed)
  }

  ghost predicate DistinctCalls(lines: seq<Line>) {
    forall id {:trigger Own(lines, id)} :: StartsOnce(Own(lines, id))
  }

  lemma {:induction false} OwnAreToolLines(lines: seq<Line>, id: string)
    ensures forall l | l in Own(lines, id) :: IsToolLine(l) && l.id == id
  {
    if lines != [] {
      OwnAreToolLines(lines[..|lines| - 1], id);
    }
  }

  lemma OwnSnoc(lines: seq<Line>, l: Line, id: string)
    ensures Own(lines + [l], id) == Own(lines, id) + (if IsToolLine(l) && l.id == id then [l] else [])
  {
    assert (lines + [l])[..|lines|] == lines;
  }

  lemma DistinctPrefix(lines: seq<Line>, l: Line)
    requires DistinctCalls(lines + [l])
    ensures DistinctCalls(lines)
    ensures l.ToolStarted? ==> Own(lines, l.id) == []
    ensures (l.ToolFinished? || l.ToolFailed?) ==> Own(lines, l.id) != []
  {
    forall id ensures StartsOnce(Own(lines, id)) {
      OwnSnoc(lines, l, id);
      StartsOncePrefix(Own(lines, id), l, Own(lines + [l], id));
    }
    if IsToolLine(l) {
      OwnSnoc(lines, l, l.id);
      StartsOncePrefix(Own(lines, l.id), l, Own(lines + [l], l.id));
    }
  }

  lemma StartsOncePrefix(own: seq<Line>, l: Line, longer: seq<Line>)
    requires StartsOnce(longer) && (longer == own || longer == own + [] || longer == own + [l])
    ensures StartsOnce(own)
    ensures longer == own + [l] ==> (l.ToolStarted? <==> own == [])
  {
    assert forall k | 0 <= k < |own| :: own[k] == longer[k];
    if longer == own + [l] {
      assert longer[|own|] == l;
    }
  }

  // The scan knows exactly the calls it has seen lines of.
  ghost predicate Knows(lines: seq<Line>, p: Progress) {
    forall id :: id in p.toolIndex <==> Own(lines, id) != []
  }

  // It lists them in start order, one entry each.
  predicate InOrder(order: seq<string>, p: Progress) {
    && |p.summary.tools| == |order|
    && forall j | 0 <= j < |order| :: order[j] in p.toolIndex && p.toolIndex[order[j]] == j
  }

  // Every entry says what that call's own lines say.
  ghost predicate Agrees(lines: seq<Line>, p: Progress)
    requires InStep(p)
  {
    forall id | id in p.toolIndex :: TracksCall(Own(lines, id), StartOrder(lines), p, id)
  }

  ghost predicate Tracks(lines: seq<Line>, p: Progress) {
    InStep(p) && Knows(lines, p) && InOrder(StartOrder(lines), p) && Agrees(lines, p)
  }

  ghost predicate TracksCall(own: seq<Line>, order: seq<string>, p: Progress, id: string)
    requires InStep(p) && id in p.toolIndex
  {
    var j := p.toolIndex[id];
    Begun(own) && j < |order| && order[j] == id && p.summary.tools[j] == Reported(own)
  }

  lemma NewCallTracks(order: seq<string>, p: Progress, l: Line)
    requires InStep(p) && l.ToolStarted? && |p.summary.tools| == |order|
    ensures TracksCall([l], order + [l.id], Step(p, l), l.id)
  {
  }

  lemma SameCallTracks(own: seq<Line>, order: seq<string>, p: Progress, l: Line)
    requires InStep(p) && (l.ToolFinished? || l.ToolFailed?)
    requires l.id in p.toolIndex && TracksCall(own, order, p, l.id)
    ensures TracksCall(own + [l], order, Step(p, l), l.id)
  {
  }

  lemma OtherCallTracks(own: seq<Line>, order: seq<string>, p: Progress, l: Line, id: string)
    requires InStep(p) && id in p.toolIndex && TracksCall(own, order, p, id)
    requires IsToolLine(l) ==> l.id != id
    requires IsToolLine(l) && l.id in p.toolIndex ==> p.toolIndex[l.id] != p.toolIndex[id]
    ensures id in Step(p, l).toolIndex
    ensures TracksCall(own, order + (if l.ToolStarted? then [l.id] else []), Step(p, l), id)
  {
    var j := p.toolIndex[id];
    assert Step(p, l).toolIndex[id] == j;
    assert Step(p, l).summary.tools[j] == p.summary.tools[j];
  }

  lemma StartOrderSnoc(lines: seq<Line>, l: Line)
    ensures StartOrder(lines + [l]) == StartOrder(lines) + (if l.ToolStarted? then [l.id] else [])
  {
    assert (lines + [l])[..|lines|] == lines;
  }

  lemma StepTracksCall(own: seq<Line>, order: seq<string>, p: Progress, l: Line, id: string)
    requires InStep(p) && |p.summary.tools| == |order|
    requires id in Step(p, l).toolIndex
    requires if id in p.toolIndex then TracksCall(own, order, p, id) else own == []
    requires l.ToolStarted? && l.id == id ==> id !in p.toolIndex
    requires IsToolLine(l) && l.id in p.toolIndex ==> Position(order, p, l.id)
    ensures TracksCall(own + (if IsToolLine(l) && l.id == id then [l] else []),
                       order + (if l.ToolStarted? then [l.id] else []), Step(p, l), id)
  {
    if IsToolLine(l) && l.id == id {
      if l.ToolStarted? {
        NewCallTracks(order, p, l);
        assert [] + [l] == [l];
      } else {
        SameCallTracks(own, order, p, l);
        assert order + [] == order;
      }
    } else {
      OtherCallTracks(own, order, p, l, id);
      assert own + [] == own;
    }
  }

  predicate Position(order: seq<string>, p: Progress, id: string)
    requires id in p.toolIndex
  {
    p.toolIndex[id] < |order| && order[p.toolIndex[id]] == id
  }

  lemma StepKnowsCall(own: seq<Line>, p: Progress, l: Line, id: string)
    requires InStep(p) && (id in p.toolIndex <==> own != [])
    requires (l.ToolFinished? || l.ToolFailed?) && l.id == id ==> own != []
    ensures id in Step(p, l).toolIndex <==> own + (if IsToolLine(l) && l.id == id then [l] else []) != []
  {
    var q := Step(p, l).toolIndex;
    if l.ToolStarted? {
      assert q == p.toolIndex[l.id := |p.summary.tools|];
    } else {
      assert q == p.toolIndex;
    }
  }

  lemma StepKnows(lines: seq<Line>, p: Progress, l: Line)
    requires InStep(p) && Knows(lines, p)
    requires (l.ToolFinished? || l.ToolFailed?) ==> Own(lines, l.id) != []
    ensures Knows(lines + [l], Step(p, l))
  {
    forall id ensures id in Step(p, l).toolIndex <==> Own(lines + [l], id) != [] {
      OwnSnoc(lines, l, id);
      StepKnowsCall(Own(lines, id), p, l, id);
    }
  }

  lemma StepInOrder(order: seq<string>, p: Progress, l: Line)
    requires InStep(p) && InOrder(order, p)
    requires l.ToolStarted? ==> l.id !in p.toolIndex
    ensures InOrder(order + (if l.ToolStarted? then [l.id] else []), Step(p, l))
  {
  }

  lemma StepAgrees(lines: seq<Line>, p: Progress, l: Line)
    requires InStep(p) && Agrees(lines, p) && |p.summary.tools| == |StartOrder(lines)|
    requires forall id | id !in p.toolIndex :: Own(lines, id) == []
    requires l.ToolStarted? ==> l.id !in p.toolIndex
    ensures Agrees(lines + [l], Step(p, l))
  {
    var q, order := Step(p, l), StartOrder(lines);
    StartOrderSnoc(lines, l);
    if IsToolLine(l) && l.id in p.toolIndex {
      assert TracksCall(Own(lines, l.id), order, p, l.id);
    }
    forall id | id in q.toolIndex ensures TracksCall(Own(lines + [l], id), StartOrder(lines + [l]), q, id) {
      OwnSnoc(lines, l, id);
      assert id in p.toolIndex ==> TracksCall(Own(lines, id), order, p, id);
      StepTracksCall(Own(lines, id), order, p, l, id);
    }
  }

  lemma StepTracks(lines: seq<Line>, p: Progress, l: Line)
    requires Tracks(lines, p)
    requires l.ToolStarted? ==> Own(lines, l.id) == []
    requires (l.ToolFinished? || l.ToolFailed?) ==> Own(lines, l.id) != []
    ensures Tracks(lines + [l], Step(p, l))
  {
    StepKnows(lines, p, l);
    StartOrderSnoc(lines, l);
    StepInOrder(StartOrder(lines), p, l);
    StepAgrees(lines, p, l);
  }

  lemma {:induction false} ScanTracks(lines: seq<Line>)
    requires DistinctCalls(lines)
    ensures Tracks(lines, Scan(lines))
  {
    if lines != [] {
      var n := |lines| - 1;
      assert lines == lines[..n] + [lines[n]];
      DistinctPrefix(lines[..n], lines[n]);
      ScanTracks(lines[..n]);
      StepTracks(lines[..n], Scan(lines[..n]), lines[n]);
    }
  }

  // ---- Concurrent invocations ------------------------------------------------------

  // How the trace records an event of the invoker; permission events are other lines.
  predicate Recorded(e: Invoker.Event, l: Line) {
    match e
    case CallStarted(id, name) => l.ToolStarted? && l.id == id && l.name == name
    case CallFinished(id, _, _, elapsed) => l.ToolFinished? && l.id == id && l.elapsed == elapsed
    case CallFailed(id, _, _, _, elapsed, _) => l.ToolFailed? && l.id == id && l.elapsed == elapsed
    case _ => false
  }

  function ToolEvents(events: seq<Invoker.Event>): seq<Invoker.Event> {
    if events == [] then []
    else
      (if events[0].CallStarted? || events[0].CallFinished? || events[0].CallFailed? then [events[0]] else [])
      + ToolEvents(events[1..])
  }

  // The lines are these events, one for one, whatever their timestamps.
  predicate Records(lines: seq<Line>, events: seq<Invoker.Event>) {
    |lines| == |events| && forall k | 0 <= k < |lines| :: Recorded(events[k], lines[k])
  }

  // The trace is some interleaving of the given finished calls with anything
  // else the run records: the lines of each call are its own events in order,
  // and there are no tool lines of other calls.
  ghost predicate Interleaves(registry: map<string, Invoker.Tool>, calls: map<string, Invoker.Call>, lines: seq<Line>) {
    && (forall id | id in calls :: calls[id].id == id)
    && (forall id | id in calls :: Records(Own(lines, id), ToolEvents(Invoker.OutcomeOf(registry, calls[id]).events)))
    && (forall id | id !in calls :: Own(lines, id) == [])
  }

  // A call's tool events: first the start, last the outcome.
  lemma {:induction false} ToolEventsShape(events: seq<Invoker.Event>)
    requires |events| >= 1 && (events[|events| - 1].CallFinished? || events[|events| - 1].CallFailed?)
    requires forall j | 0 <= j < |events| :: !events[j].CallStarted?
    ensures var t := ToolEvents(events);
      |t| >= 1 && t[|t| - 1] == events[|events| - 1] && forall j | 0 <= j < |t| :: !t[j].CallStarted?
  {
    if |events| > 1 {
      ToolEventsShape(events[1..]);
    } else {
      assert events[1..] == [];
    }
  }

  lemma LinesOfEvents(events: seq<Invoker.Event>, own: seq<Line>)
    requires |events| >= 2 && events[0].CallStarted?
    requires forall j | 1 <= j < |events| :: !events[j].CallStarted?
    requires events[|events| - 1].CallFinished? || events[|events| - 1].CallFailed?
    requires Records(own, ToolEvents(events))
    ensures StartsOnce(own) && |own| >= 2
    ensures own[0].name == events[0].name
    ensures own[|own| - 1].ToolFinished? <==> events[|events| - 1].CallFinished?
    ensures own[|own| - 1].ToolFailed? <==> events[|events| - 1].CallFailed?
    ensures own[|own| - 1].elapsed == events[|events| - 1].elapsed
  {
    var t, rest := ToolEvents(events), ToolEvents(events[1..]);
    ToolEventsShape(events[1..]);
    assert t == [events[0]] + rest;
    assert t[|t| - 1] == rest[|rest| - 1] == events[|events| - 1];
    assert Recorded(t[|t| - 1], own[|own| - 1]) && Recorded(t[0], own[0]);
    forall k | 1 <= k < |own| ensures !own[k].ToolStarted? {
      assert t[k] == rest[k - 1] && Recorded(t[k], own[k]);
    }
  }

  // The time the call's outcome event gives.
  function LastElapsed(o: Invoker.Outcome): int {
    if o.events == [] then 0
    else match o.events[|o.events| - 1]
         case CallFinished(_, _, _, elapsed) => elapsed
         case CallFailed(_, _, _, _, elapsed, _) => elapsed
         case _ => 0
  }

  lemma CallLines(registry: map<string, Invoker.Tool>, call: Invoker.Call, own: seq<Line>)
    requires Records(own, ToolEvents(Invoker.OutcomeOf(registry, call).events))
    ensures StartsOnce(own) && own != []
    ensures own[0].name == call.name
    ensures own[|own| - 1].ToolFinished? <==> !Invoker.OutcomeOf(registry, call).result.isError
    ensures own[|own| - 1].ToolFailed? <==> Invoker.OutcomeOf(registry, call).result.isError
    ensures own[|own| - 1].elapsed == LastElapsed(Invoker.OutcomeOf(registry, call))
  {
    Invoker.LastEventTells(registry, call);
    LinesOfEvents(Invoker.OutcomeOf(registry, call).events, own);
  }

  lemma InterleavingIsDistinct(registry: map<string, Invoker.Tool>, calls: map<string, Invoker.Call>, lines: seq<Line>)
    requires Interleaves(registry, calls, lines)
    ensures DistinctCalls(lines)
  {
    forall id ensures StartsOnce(Own(lines, id)) {
      if id in calls {
        CallLines(registry, calls[id], Own(lines, id));
      }
    }
  }

  // Main result: for any interleaving of finished calls with distinct ids, the
  // summary lists each call once, in the order they started, under its own name,
  // as a success exactly when that invocation returned a result that is no error.
  lemma OutcomesAreReadBack(registry: map<string, Invoker.Tool>, calls: map<string, Invoker.Call>, lines: seq<Line>)
    requires Interleaves(registry, calls, lines)
    ensures var tools := Scan(lines).summary.tools;
      var order := StartOrder(lines);
      && |tools| == |order|
      && (forall i, j | 0 <= i < j < |order| :: order[i] != order[j])
      && (forall id :: id in calls <==> id in order)
      && (forall j | 0 <= j < |order| ::
            && order[j] in calls
            && tools[j].id == order[j]
            && tools[j].name == calls[order[j]].name
            && tools[j].elapsed == LastElapsed(Invoker.OutcomeOf(registry, calls[order[j]]))
            && tools[j].status == if Invoker.OutcomeOf(registry, calls[order[j]]).result.isError then Failed else Success)
  {
    InterleavingIsDistinct(registry, calls, lines);
    ScanTracks(lines);
    var p, order := Scan(lines), StartOrder(lines);
    forall id | id in calls ensures id in order {
      CallLines(registry, calls[id], Own(lines, id));
      assert TracksCall(Own(lines, id), order, p, id);
    }
    forall j | 0 <= j < |order|
      ensures order[j] in calls
      ensures p.summary.tools[j].id == order[j] && p.summary.tools[j].name == calls[order[j]].name
      ensures p.summary.tools[j].elapsed == LastElapsed(Invoker.OutcomeOf(registry, calls[order[j]]))
      ensures p.summary.tools[j].status
           == if Invoker.OutcomeOf(registry, calls[order[j]]).result.isError then Failed else Success
    {
      var own := Own(lines, order[j]);
      assert TracksCall(own, order, p, order[j]);
      CallIsReadBack(registry, calls, lines, order[j], own, p.summary.tools[j]);
    }
  }

  // The entry for one call, from its own lines.
  lemma {:induction false} CallIsReadBack(registry: map<string, Invoker.Tool>, calls: map<string, Invoker.Call>, lines: seq<Line>,
                       id: string, own: seq<Line>, entry: ToolSummary)
    requires Interleaves(registry, calls, lines) && own == Own(lines, id)
    requires Begun(own) && entry == Reported(own)
    ensures id in calls && entry.id == id && entry.name == calls[id].name
    ensures entry.status == if Invoker.OutcomeOf(registry, calls[id]).result.isError then Failed else Success
    ensures entry.elapsed == LastElapsed(Invoker.OutcomeOf(registry, calls[id]))
  {
    assert id in calls;
    OwnAreToolLines(lines, id);
    assert own[0] in own;
    CallLines(registry, calls[id], own);
  }

  // While a call is still going on (its lines so far are a proper beginning of
  // what it will record) it is never listed as a success; once an attempt has
  // failed it is listed as failed, although a retry may still succeed.
  lemma UnfinishedCalls(registry: map<string, Invoker.Tool>, call: Invoker.Call, lines: seq<Line>)
    requires DistinctCalls(lines)
    requires var t := ToolEvents(Invoker.OutcomeOf(registry, call).events);
      0 < |Own(lines, call.id)| < |t| && Records(Own(lines, call.id), t[..|Own(lines, call.id)|])
    ensures var p := Scan(lines);
      && call.id in p.toolIndex
      && p.summary.tools[p.toolIndex[call.id]].status == if |Own(lines, call.id)| == 1 then Running else Failed
  {
    ScanTracks(lines);
    var p, own := Scan(lines), Own(lines, call.id);
    assert TracksCall(own, StartOrder(lines), p, call.id);
    var events := Invoker.OutcomeOf(registry, call).events;
    Invoker.LastEventTells(registry, call);
    var t := ToolEvents(events);
    EarlyEventsFail(events);
    assert Recorded(t[|own| - 1], own[|own| - 1]);
  }

  // Of the tool events of a call, all between the first and the last are failures.
  lemma EarlyEventsFail(events: seq<Invoker.Event>)
    requires |events| >= 1 && events[0].CallStarted?
    requires forall j | 0 <= j < |events| - 1 :: !events[j].CallFinished?
    requires forall j | 1 <= j < |events| :: !events[j].CallStarted?
    ensures var t := ToolEvents(events);
      t[0] == events[0] && forall j | 1 <= j < |t| - 1 :: t[j].CallFailed?
  {
    var rest := ToolEvents(events[1..]);
    FailuresThenLast(events[1..]);
    assert ToolEvents(events) == [events[0]] + rest;
    assert forall j | 1 <= j < |ToolEvents(events)| :: ToolEvents(events)[j] == rest[j - 1];
  }

  lemma {:induction false} FailuresThenLast(events: seq<Invoker.Event>)
    requires forall j | 0 <= j < |events| :: !events[j].CallStarted?
    requires forall j | 0 <= j < |events| - 1 :: !events[j].CallFinished?
    ensures forall j | 0 <= j < |ToolEvents(events)| - 1 :: ToolEvents(events)[j].CallFailed?
  {
    if |events| > 1 {
      FailuresThenLast(events[1..]);
    } else if |events| == 1 {
      assert events[1..] == [];
    }
  }
}
