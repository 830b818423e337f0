// Message channels (internal/channel/manager.go) as a transition system: one
// reader per channel, one bounded queue and one worker per sender.
module SenderQueues {
  import opened Basics

  const QUEUE_SIZE := 16

  datatype Message = Message(channelName: string, sender: string, content: string)

  // How one message was dealt with: no agent matched, the handler failed, or its output.
  datatype Outcome = NoAgent | HandlerFailed | Output(text: string)

  datatype Handled = Handled(message: Message, outcome: Outcome)

  // A sender's queue and its worker.
  datatype Lane = Lane(
    channel: string,              // the channel the worker replies on
    queue: seq<Message>,
    current: Option<Message>,     // being processed
    // history
    sender: string,               // whose message opened the lane
    done: seq<Handled>)

  type Party = (string, string)   // a channel's name and a sender on it

  datatype State = State(
    lanes: map<string, Lane>,
    held: map<string, Message>,   // what a channel's reader is dispatching
    // history
    arrived: map<Party, seq<Message>>,
    sent: map<Party, seq<string>>)

  const INIT := State(map[], map[], map[], map[])

  datatype Action =
    | Arrive(channel: string, message: Message)
    | OpenLane(channel: string)
    | Enqueue(channel: string)
    | Take(key: string)
    | Finish(key: string, outcome: Outcome)

  function Key(channel: string, sender: string): string {
    channel + "/" + sender
  }

  function KeyOf(p: Party): string {
    Key(p.0, p.1)
  }

  function At<T>(m: map<Party, seq<T>>, p: Party): seq<T> {
    if p in m then m[p] else []
  }

  function Push<T>(m: map<Party, seq<T>>, p: Party, x: T): map<Party, seq<T>> {
    m[p := At(m, p) + [x]]
  }

  function HeldKey(st: State, channel: string): string
    requires channel in st.held
  {
    Key(channel, st.held[channel].sender)
  }

  // A reader blocks while the queue it dispatches to is full.
  predicate Enabled(channels: set<string>, st: State, a: Action) {
    match a
    case Arrive(c, _) => c in channels && c !in st.held
    case OpenLane(c) => c in st.held
    case Enqueue(c) => c in st.held && HeldKey(st, c) in st.lanes && |st.lanes[HeldKey(st, c)].queue| < QUEUE_SIZE
    case Take(k) => k in st.lanes && st.lanes[k].current.None? && st.lanes[k].queue != []
    case Finish(k, _) => k in st.lanes && st.lanes[k].current.Some?
  }

  function Named(channel: string, m: Message): Message {
    if m.channelName == "" then m.(channelName := channel) else m
  }

  function NewLane(channel: string, sender: string): Lane {
    Lane(channel, [], None, sender, [])
  }

  function Queued(l: Lane, m: Message): Lane {
    l.(queue := l.queue + [m])
  }

  function Taken(l: Lane): Lane
    requires l.queue != []
  {
    l.(queue := l.queue[1..], current := Some(l.queue[0]))
  }

  function Finished(l: Lane, o: Outcome): Lane
    requires l.current.Some?
  {
    l.(current := None, done := l.done + [Handled(l.current.value, o)])
  }

  // Only non-empty output is sent back.
  predicate Replies(o: Outcome) {
    o.Output? && o.text != ""
  }

  function Next(channels: set<string>, st: State, a: Action): State
    requires Enabled(channels, st, a)
  {
    match a
    case Arrive(c, m) =>
      st.(held := st.held[c := Named(c, m)], arrived := Push(st.arrived, (c, m.sender), Named(c, m)))
    case OpenLane(c) =>
      if HeldKey(st, c) in st.lanes then st
      else st.(lanes := st.lanes[HeldKey(st, c) := NewLane(c, st.held[c].sender)])
    case Enqueue(c) =>
      st.(lanes := st.lanes[HeldKey(st, c) := Queued(st.lanes[HeldKey(st, c)], st.held[c])], held := st.held - {c})
    case Take(k) => st.(lanes := st.lanes[k := Taken(st.lanes[k])])
    case Finish(k, o) =>
      var l := st.lanes[k];
      st.(lanes := st.lanes[k := Finished(l, o)],
          sent := if Replies(o) then Push(st.sent, (l.channel, l.current.value.sender), o.text) else st.sent)
  }

  // ---- What is where -------------------------------------------------------------------

  function Messages(hs: seq<Handled>): seq<Message> {
    if hs == [] then [] else Messages(hs[..|hs| - 1]) + [hs[|hs| - 1].message]
  }

  function RepliesIn(hs: seq<Handled>): seq<string> {
    if hs == [] then []
    else
      var h := hs[|hs| - 1];
      RepliesIn(hs[..|hs| - 1]) + (if h.outcome.Output? && h.outcome.text != "" then [h.outcome.text] else [])
  }

  function InProcess(l: Lane): seq<Message> {
    if l.current.Some? then [l.current.value] else []
  }

  function LaneOf(st: State, p: Party): Lane {
    if KeyOf(p) in st.lanes then st.lanes[KeyOf(p)] else NewLane(p.0, p.1)
  }

  function Blocked(st: State, p: Party): seq<Message> {
    if p.0 in st.held && st.held[p.0].sender == p.1 then [st.held[p.0]] else []
  }

  function Contents(l: Lane): seq<Message> {
    Messages(l.done) + InProcess(l) + l.queue
  }

  // ---- Keys ---------------------------------------------------------------------------------

  // No two of these parties share a queue.
  ghost predicate KeysApart(parties: iset<Party>) {
    forall p, q | p in parties && q in parties && KeyOf(p) == KeyOf(q) :: p == q
  }

  // No name followed by the separator begins another name.
  predicate NamesApart(channels: set<string>) {
    forall c, d | c in channels && d in channels :: !(c + "/" <= d)
  }

  ghost function PartiesOn(channels: set<string>): iset<Party> {
    iset p: Party | p.0 in channels
  }

  // Two channels can meet in a key exactly if one name begins the other so.
  lemma KeysMeetIff(c: string, d: string)
    requires c != d
    ensures (exists s, t :: Key(c, s) == Key(d, t)) <==> c + "/" <= d || d + "/" <= c
  {
    if s, t :| Key(c, s) == Key(d, t) {
      var k := Key(c, s);
      assert k[..|c| + 1] == c + "/" && k[..|d| + 1] == d + "/";
      assert k[..|c|] == c && k[..|d|] == d;
      if |c| < |d| {
        assert d[..|c| + 1] == k[..|c| + 1];
      } else if |d| < |c| {
        assert c[..|d| + 1] == k[..|d| + 1];
      }
    }
    if c + "/" <= d {
      KeysMeet(c, d, "");
    }
    if d + "/" <= c {
      KeysMeet(d, c, "");
    }
  }

  lemma KeysMeet(c: string, d: string, s: string)
    requires c + "/" <= d
    ensures Key(c, d[|c| + 1..] + "/" + s) == Key(d, s)
  {
    assert d == c + "/" + d[|c| + 1..];
  }

  lemma SameChannelKeys(p: Party, q: Party)
    ensures p.0 == q.0 && KeyOf(p) == KeyOf(q) ==> p == q
  {
    assert KeyOf(p)[|p.0| + 1..] == p.1 && KeyOf(q)[|q.0| + 1..] == q.1;
  }

  // So whatever the senders are called, keys are apart exactly under that
  // condition on the channels' names.
  lemma AllSendersApartIff(channels: set<string>)
    ensures KeysApart(PartiesOn(channels)) <==> NamesApart(channels)
  {
    if NamesApart(channels) {
      forall p, q | p in PartiesOn(channels) && q in PartiesOn(channels) && KeyOf(p) == KeyOf(q) ensures p == q {
        SameChannelKeys(p, q);
        if p.0 != q.0 {
          KeysMeetIff(p.0, q.0);
        }
      }
    } else {
      var c, d :| c in channels && d in channels && c + "/" <= d;
      KeysMeet(c, d, "");
      assert (c, d[|c| + 1..] + "/") in PartiesOn(channels) && (d, "") in PartiesOn(channels);
      assert d[|c| + 1..] + "/" + "" == d[|c| + 1..] + "/";
      assert KeyOf((c, d[|c| + 1..] + "/")) == KeyOf((d, ""));
    }
  }

  // Senders without a "/", such as decimal chat ids, keep keys apart whatever the
  // channels are called.
  lemma PlainSendersApart(parties: iset<Party>)
    requires forall p | p in parties :: '/' !in p.1
    ensures KeysApart(parties)
  {
    forall p, q | p in parties && q in parties && KeyOf(p) == KeyOf(q) ensures p == q {
      LastSeparatorSplits(p.0, p.1, q.0, q.1);
    }
  }

  lemma LastSeparator(c: string, s: string)
    requires '/' !in s
    ensures var k := Key(c, s);
      && k[|c|] == '/' && (forall j | |c| < j < |k| :: k[j] != '/')
      && k[..|c|] == c && k[|c| + 1..] == s
  {
    var k := Key(c, s);
    forall j | |c| < j < |k| ensures k[j] != '/' {
      assert k[j] == s[j - |c| - 1] && s[j - |c| - 1] in s;
    }
  }

  lemma LastSeparatorSplits(c: string, s: string, d: string, t: string)
    requires '/' !in s && '/' !in t && Key(c, s) == Key(d, t)
    ensures c == d && s == t
  {
    LastSeparator(c, s);
    LastSeparator(d, t);
  }

  // ---- The invariant ----------------------------------------------------------------------

  predicate From(ms: seq<Message>, sender: string) {
    forall k | 0 <= k < |ms| :: ms[k].sender == sender
  }

  // A lane holds one party's messages and replies on that party's channel.
  ghost predicate LaneOk(parties: iset<Party>, key: string, l: Lane) {
    && key == Key(l.channel, l.sender) && (l.channel, l.sender) in parties
    && |l.queue| <= QUEUE_SIZE && From(l.queue, l.sender)
    && (l.current.Some? ==> l.current.value.sender == l.sender)
  }

  ghost predicate LanesOk(parties: iset<Party>, st: State) {
    forall k | k in st.lanes :: LaneOk(parties, k, st.lanes[k])
  }

  ghost predicate HeldOk(parties: iset<Party>, st: State) {
    forall c | c in st.held :: (c, st.held[c].sender) in parties
  }

  predicate PartyOk(st: State, p: Party) {
    && At(st.arrived, p) == Contents(LaneOf(st, p)) + Blocked(st, p)
    && At(st.sent, p) == RepliesIn(LaneOf(st, p).done)
  }

  ghost predicate Inv(parties: iset<Party>, st: State) {
    LanesOk(parties, st) && HeldOk(parties, st) && forall p | p in parties :: PartyOk(st, p)
  }

  ghost predicate Expected(parties: iset<Party>, a: Action) {
    a.Arrive? ==> (a.channel, a.message.sender) in parties
  }

  // ---- Preservation --------------------------------------------------------------------------

  lemma QueuedContents(l: Lane, m: Message)
    ensures Contents(Queued(l, m)) == Contents(l) + [m]
  {
    Assoc(Messages(l.done) + InProcess(l), l.queue, [m]);
  }

  lemma TakenContents(l: Lane)
    requires l.queue != [] && l.current.None?
    ensures Contents(Taken(l)) == Contents(l)
  {
    assert l.queue == [l.queue[0]] + l.queue[1..];
    Assoc(Messages(l.done), [l.queue[0]], l.queue[1..]);
  }

  lemma FinishedContents(l: Lane, o: Outcome)
    requires l.current.Some?
    ensures Contents(Finished(l, o)) == Contents(l)
    ensures RepliesIn(Finished(l, o).done) == RepliesIn(l.done) + (if Replies(o) then [o.text] else [])
  {
    var h := Handled(l.current.value, o);
    HandledSnoc(l.done, h);
    assert Messages(l.done) + [h.message] + [] == Messages(l.done) + [h.message];
  }

  lemma HandledSnoc(hs: seq<Handled>, h: Handled)
    ensures Messages(hs + [h]) == Messages(hs) + [h.message]
    ensures RepliesIn(hs + [h]) == RepliesIn(hs) + (if Replies(h.outcome) then [h.outcome.text] else [])
  {
    assert (hs + [h])[..|hs|] == hs;
  }

  lemma ArriveKeepsParty(channels: set<string>, st: State, c: string, m: Message, p: Party)
    requires Enabled(channels, st, Arrive(c, m)) && PartyOk(st, p)
    ensures PartyOk(Next(channels, st, Arrive(c, m)), p)
  {
    var t := Next(channels, st, Arrive(c, m));
    assert LaneOf(t, p) == LaneOf(st, p);
    if p == (c, m.sender) {
      assert Blocked(st, p) == [] && Blocked(t, p) == [Named(c, m)];
    } else {
      assert Blocked(t, p) == Blocked(st, p);
    }
  }

  lemma OpenLaneKeepsParty(channels: set<string>, parties: iset<Party>, st: State, c: string, p: Party)
    requires KeysApart(parties) && HeldOk(parties, st) && Enabled(channels, st, OpenLane(c)) && PartyOk(st, p) && p in parties
    ensures PartyOk(Next(channels, st, OpenLane(c)), p)
  {
    assert KeyOf((c, st.held[c].sender)) == KeyOf(p) ==> (c, st.held[c].sender) == p;
    assert LaneOf(Next(channels, st, OpenLane(c)), p) == LaneOf(st, p);
  }

  lemma EnqueueKeepsParty(channels: set<string>, parties: iset<Party>, st: State, c: string, p: Party)
    requires KeysApart(parties) && HeldOk(parties, st) && Enabled(channels, st, Enqueue(c)) && PartyOk(st, p) && p in parties
    ensures PartyOk(Next(channels, st, Enqueue(c)), p)
  {
    var t := Next(channels, st, Enqueue(c));
    assert KeyOf((c, st.held[c].sender)) == KeyOf(p) ==> (c, st.held[c].sender) == p;
    if p == (c, st.held[c].sender) {
      QueuedContents(LaneOf(st, p), st.held[c]);
      assert LaneOf(t, p) == Queued(LaneOf(st, p), st.held[c]);
      assert Blocked(t, p) == [];
    } else {
      assert LaneOf(t, p) == LaneOf(st, p) && Blocked(t, p) == Blocked(st, p);
    }
  }

  lemma TakeKeepsParty(channels: set<string>, st: State, k: string, p: Party)
    requires Enabled(channels, st, Take(k)) && PartyOk(st, p)
    ensures PartyOk(Next(channels, st, Take(k)), p)
  {
    TakenContents(st.lanes[k]);
  }

  lemma {:induction false} FinishKeepsParty(channels: set<string>, parties: iset<Party>, st: State, k: string,
                                            o: Outcome, p: Party)
    requires KeysApart(parties) && LanesOk(parties, st) && Enabled(channels, st, Finish(k, o)) && PartyOk(st, p) && p in parties
    ensures PartyOk(Next(channels, st, Finish(k, o)), p)
  {
    var l := st.lanes[k];
    assert LaneOk(parties, k, l);
    FinishedContents(l, o);
    assert KeyOf((l.channel, l.sender)) == KeyOf(p) ==> (l.channel, l.sender) == p;
    var t := Next(channels, st, Finish(k, o));
    assert Blocked(t, p) == Blocked(st, p);
    if p == (l.channel, l.sender) {
      assert LaneOf(st, p) == l && LaneOf(t, p) == Finished(l, o);
    } else {
      assert LaneOf(t, p) == LaneOf(st, p) && At(t.sent, p) == At(st.sent, p);
    }
  }

  lemma NextKeepsLanes(channels: set<string>, parties: iset<Party>, st: State, a: Action)
    requires KeysApart(parties) && LanesOk(parties, st) && HeldOk(parties, st)
    requires Enabled(channels, st, a) && Expected(parties, a)
    ensures LanesOk(parties, Next(channels, st, a)) && HeldOk(parties, Next(channels, st, a))
  {
    if a.Enqueue? {
      var l := st.lanes[HeldKey(st, a.channel)];
      assert LaneOk(parties, HeldKey(st, a.channel), l);
      assert KeyOf((a.channel, st.held[a.channel].sender)) == KeyOf((l.channel, l.sender));
    }
  }

  lemma NextKeepsInv(channels: set<string>, parties: iset<Party>, st: State, a: Action)
    requires KeysApart(parties) && Inv(parties, st) && Enabled(channels, st, a) && Expected(parties, a)
    ensures Inv(parties, Next(channels, st, a))
  {
    NextKeepsLanes(channels, parties, st, a);
    forall p | p in parties ensures PartyOk(Next(channels, st, a), p) {
      assert PartyOk(st, p);
      match a {
        case Arrive(d, m) => ArriveKeepsParty(channels, st, d, m, p);
        case OpenLane(d) => OpenLaneKeepsParty(channels, parties, st, d, p);
        case Enqueue(d) => EnqueueKeepsParty(channels, parties, st, d, p);
        case Take(k) => TakeKeepsParty(channels, st, k, p);
        case Finish(k, o) => FinishKeepsParty(channels, parties, st, k, o, p);
      }
    }
  }

  // ---- Runs ---------------------------------------------------------------------------------------

  ghost predicate Reaches(channels: set<string>, acts: seq<Action>, st: State) {
    if acts == [] then st == INIT
    else
      var n := |acts| - 1;
      exists pre :: Reaches(channels, acts[..n], pre) && Enabled(channels, pre, acts[n]) && st == Next(channels, pre, acts[n])
  }

  ghost predicate AllExpected(parties: iset<Party>, acts: seq<Action>) {
    forall k | 0 <= k < |acts| :: Expected(parties, acts[k])
  }

  lemma {:induction false} ReachableIsInv(channels: set<string>, parties: iset<Party>, acts: seq<Action>, st: State)
    requires KeysApart(parties) && AllExpected(parties, acts) && Reaches(channels, acts, st)
    ensures Inv(parties, st)
  {
    if acts != [] {
      var n := |acts| - 1;
      var pre :| Reaches(channels, acts[..n], pre) && Enabled(channels, pre, acts[n]) && st == Next(channels, pre, acts[n]);
      assert Expected(parties, acts[n]);
      ReachableIsInv(channels, parties, acts[..n], pre);
      NextKeepsInv(channels, parties, pre, acts[n]);
    }
  }

  // The messages a party sent so far, read off the run, each under its channel's
  // name unless it already bore one.
  function ArrivalsFrom(acts: seq<Action>, p: Party): seq<Message> {
    if acts == [] then []
    else
      var a := acts[|acts| - 1];
      ArrivalsFrom(acts[..|acts| - 1], p)
      + (if a.Arrive? && (a.channel, a.message.sender) == p then
           [Message(if a.message.channelName == "" then p.0 else a.message.channelName, p.1, a.message.content)]
         else [])
  }

  lemma {:induction false} ArrivedIsArrivals(channels: set<string>, acts: seq<Action>, st: State, p: Party)
    requires Reaches(channels, acts, st)
    ensures At(st.arrived, p) == ArrivalsFrom(acts, p)
  {
    if acts != [] {
      var n := |acts| - 1;
      var pre :| Reaches(channels, acts[..n], pre) && Enabled(channels, pre, acts[n]) && st == Next(channels, pre, acts[n]);
      ArrivedIsArrivals(channels, acts[..n], pre, p);
    }
  }

  // How the messages on one queue ended, read off the run.
  function Endings(acts: seq<Action>, key: string): seq<Outcome> {
    if acts == [] then []
    else
      var a := acts[|acts| - 1];
      Endings(acts[..|acts| - 1], key) + (if a.Finish? && a.key == key then [a.outcome] else [])
  }

  predicate EndedAs(hs: seq<Handled>, outcomes: seq<Outcome>) {
    |hs| == |outcomes| && forall k | 0 <= k < |hs| :: hs[k].outcome == outcomes[k]
  }

  function DoneOn(st: State, key: string): seq<Handled> {
    if key in st.lanes then st.lanes[key].done else []
  }

  lemma StepEnds(channels: set<string>, st: State, a: Action, key: string)
    requires Enabled(channels, st, a)
    ensures !(a.Finish? && a.key == key) ==> DoneOn(Next(channels, st, a), key) == DoneOn(st, key)
    ensures a.Finish? && a.key == key ==>
      DoneOn(Next(channels, st, a), key) == DoneOn(st, key) + [Handled(st.lanes[key].current.value, a.outcome)]
  {
  }

  // What is recorded as done on a queue ended just as the run says.
  lemma {:induction false} DoneIsEndings(channels: set<string>, acts: seq<Action>, st: State, key: string)
    requires Reaches(channels, acts, st)
    ensures EndedAs(DoneOn(st, key), Endings(acts, key))
  {
    if acts != [] {
      var n := |acts| - 1;
      var pre :| Reaches(channels, acts[..n], pre) && Enabled(channels, pre, acts[n]) && st == Next(channels, pre, acts[n]);
      DoneIsEndings(channels, acts[..n], pre, key);
      StepEnds(channels, pre, acts[n], key);
    }
  }

  // ---- Main results ---------------------------------------------------------------------------------

  // For one party: the messages that arrived are exactly those processed, then
  // the one in process, then those queued, then the one its channel's reader is
  // blocked on, in arrival order; and what it was sent is exactly the non-empty
  // outputs for those processed, in that order.
  ghost predicate Accounted(acts: seq<Action>, st: State, p: Party) {
    var l := LaneOf(st, p);
    && ArrivalsFrom(acts, p) == Messages(l.done) + InProcess(l) + l.queue + Blocked(st, p)
    && At(st.sent, p) == RepliesIn(l.done)
  }

  // In every reachable state of every run whose parties do not share keys.
  lemma {:induction false} NothingLostOrReordered(channels: set<string>, parties: iset<Party>, acts: seq<Action>,
                                                  st: State, p: Party)
    requires KeysApart(parties) && p in parties
    requires AllExpected(parties, acts) && Reaches(channels, acts, st)
    ensures Accounted(acts, st, p)
    ensures var l := LaneOf(st, p);
      && EndedAs(l.done, Endings(acts, p.0 + "/" + p.1))
      && |l.queue| <= 16 && |InProcess(l)| <= 1 && |Blocked(st, p)| <= 1
  {
    DoneIsEndings(channels, acts, st, KeyOf(p));
    ReachableIsInv(channels, parties, acts, st);
    ArrivedIsArrivals(channels, acts, st, p);
    assert PartyOk(st, p);
    if KeyOf(p) in st.lanes {
      assert LaneOk(parties, KeyOf(p), st.lanes[KeyOf(p)]);
    }
  }

  // Nothing waits without need: a reader only for a full queue, a worker only for
  // an empty one.
  lemma ReaderMoves(channels: set<string>, st: State, p: Party, m: Message)
    requires p.0 in channels
    ensures p.0 !in st.held ==> Enabled(channels, st, Arrive(p.0, m))
    ensures Blocked(st, p) != [] ==>
      && Enabled(channels, st, OpenLane(p.0))
      && var key := p.0 + "/" + p.1;
         key in Next(channels, st, OpenLane(p.0)).lanes
         && (key in st.lanes && |st.lanes[key].queue| < 16 ==> Enabled(channels, st, Enqueue(p.0)))
         && (key !in st.lanes ==> Enabled(channels, Next(channels, st, OpenLane(p.0)), Enqueue(p.0)))
  {
    assert Blocked(st, p) == [] || HeldKey(st, p.0) == p.0 + "/" + p.1;
  }

  lemma WorkerMoves(channels: set<string>, st: State, key: string, o: Outcome)
    requires key in st.lanes && (st.lanes[key].queue != [] || st.lanes[key].current.Some?)
    ensures Enabled(channels, st, Take(key)) || Enabled(channels, st, Finish(key, o))
  {
  }

  lemma FirstIsPrefix<T>(a: seq<T>, b: seq<T>, c: seq<T>, d: seq<T>)
    ensures a <= a + b + c + d
  {
  }

  // Every reply is one to a message of the party it is sent to.
  lemma {:induction false} RepliesReachTheirSender(channels: set<string>, parties: iset<Party>, acts: seq<Action>,
                                                   st: State, p: Party)
    requires KeysApart(parties) && p in parties
    requires AllExpected(parties, acts) && Reaches(channels, acts, st)
    ensures At(st.sent, p) == RepliesIn(LaneOf(st, p).done)
    ensures Messages(LaneOf(st, p).done) <= ArrivalsFrom(acts, p)
  {
    NothingLostOrReordered(channels, parties, acts, st, p);
    var l := LaneOf(st, p);
    FirstIsPrefix(Messages(l.done), InProcess(l), l.queue, Blocked(st, p));
  }

  // ---- Parties that share a key ------------------------------------------------------------------

  // p's message opens the lane both share; q's is processed on it first.
  function ClashRun(p: Party, q: Party, text: string): seq<Action> {
    [Arrive(p.0, Message(p.0, p.1, "x")), OpenLane(p.0), Arrive(q.0, Message(q.0, q.1, "y")), Enqueue(q.0),
     Take(KeyOf(p)), Finish(KeyOf(p), Output(text))]
  }

  lemma ReachesNext(channels: set<string>, acts: seq<Action>, st: State, a: Action)
    requires Reaches(channels, acts, st) && Enabled(channels, st, a)
    ensures Reaches(channels, acts + [a], Next(channels, st, a))
  {
    assert (acts + [a])[..|acts|] == acts;
  }

  // After two steps p's lane is open and its reader still holds the message.
  lemma {:induction false} ClashOpens(channels: set<string>, p: Party, q: Party, text: string) returns (st: State)
    requires p.0 in channels
    ensures Reaches(channels, ClashRun(p, q, text)[..2], st)
    ensures st.lanes == map[KeyOf(p) := NewLane(p.0, p.1)] && st.held.Keys == {p.0} && st.sent == map[]
  {
    var run := ClashRun(p, q, text);
    var s1 := Next(channels, INIT, run[0]);
    ReachesNext(channels, [], INIT, run[0]);
    assert [] + [run[0]] == run[..1] && s1.held[p.0].sender == p.1;
    st := Next(channels, s1, run[1]);
    ReachesNext(channels, run[..1], s1, run[1]);
    assert run[..1] + [run[1]] == run[..2];
  }

  // After two more q's message waits in p's lane.
  lemma {:induction false} ClashQueues(channels: set<string>, p: Party, q: Party, text: string) returns (st: State)
    requires p.0 != q.0 && KeyOf(p) == KeyOf(q) && p.0 in channels && q.0 in channels
    ensures Reaches(channels, ClashRun(p, q, text)[..4], st)
    ensures st.lanes == map[KeyOf(p) := Queued(NewLane(p.0, p.1), Message(q.0, q.1, "y"))] && st.sent == map[]
  {
    var run := ClashRun(p, q, text);
    var s2 := ClashOpens(channels, p, q, text);
    var s3 := Next(channels, s2, run[2]);
    ReachesNext(channels, run[..2], s2, run[2]);
    assert run[..2] + [run[2]] == run[..3] && s3.held[q.0] == Message(q.0, q.1, "y");
    st := Next(channels, s3, run[3]);
    ReachesNext(channels, run[..3], s3, run[3]);
    assert run[..3] + [run[3]] == run[..4];
  }

  // Any two parties that share a key can be confused: the reply to q's message
  // goes out on p's channel, and q is sent nothing.
  lemma {:induction false} ClashMisdirects(channels: set<string>, p: Party, q: Party, text: string) returns (st: State)
    requires p != q && KeyOf(p) == KeyOf(q) && p.0 in channels && q.0 in channels && text != ""
    ensures Reaches(channels, ClashRun(p, q, text), st)
    ensures st.sent == map[(p.0, q.1) := [text]] && At(st.sent, q) == []
    ensures !Accounted(ClashRun(p, q, text), st, q)
  {
    SameChannelKeys(p, q);
    var run := ClashRun(p, q, text);
    var s4 := ClashQueues(channels, p, q, text);
    var s5 := Next(channels, s4, run[4]);
    ReachesNext(channels, run[..4], s4, run[4]);
    assert run[..4] + [run[4]] == run[..5];
    assert s5.lanes[KeyOf(p)].current == Some(Message(q.0, q.1, "y"));
    st := Next(channels, s5, run[5]);
    ReachesNext(channels, run[..5], s5, run[5]);
    assert run[..5] + [run[5]] == run;
    assert st.sent == Push(map[], (p.0, q.1), text) && [] + [text] == [text];
    assert RepliesIn(LaneOf(st, q).done) != [] by {
      var h := Handled(Message(q.0, q.1, "y"), Output(text));
      assert LaneOf(st, q).done == [h] && [h][..0] == [];
    }
  }

  // So parties that do not share keys is exactly what the account needs.
  lemma AccountedIff(channels: set<string>, parties: iset<Party>)
    requires forall p | p in parties :: p.0 in channels
    ensures KeysApart(parties) <==>
      forall acts, st, p | p in parties && AllExpected(parties, acts) && Reaches(channels, acts, st) :: Accounted(acts, st, p)
  {
    if KeysApart(parties) {
      forall acts, st, p | p in parties && AllExpected(parties, acts) && Reaches(channels, acts, st) ensures Accounted(acts, st, p) {
        NothingLostOrReordered(channels, parties, acts, st, p);
      }
    } else {
      var p, q :| p in parties && q in parties && KeyOf(p) == KeyOf(q) && p != q;
      var st := ClashMisdirects(channels, p, q, "z");
      assert AllExpected(parties, ClashRun(p, q, "z"));
    }
  }

  // For arbitrary senders that is: no channel's name begins another's.
  lemma EverySenderAccountedIff(channels: set<string>)
    ensures NamesApart(channels) <==>
      forall acts, st, p | p in PartiesOn(channels) && AllExpected(PartiesOn(channels), acts) && Reaches(channels, acts, st) ::
        Accounted(acts, st, p)
  {
    AllSendersApartIff(channels);
    AccountedIff(channels, PartiesOn(channels));
  }
}
