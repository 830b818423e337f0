// The RPC client's id correlation (internal/tui/client.go; JSON-RPC 2.0
// Specification, section 5) as a transition system: any number of concurrent
// calls, one reader, and a response table under a lock.
module RpcCalls {
  import opened Basics

  const MAX_INT64: int := 0x7fff_ffff_ffff_ffff
  const TWO_TO_THE_64: int := 0x1_0000_0000_0000_0000

  // A frame from the server; id is the number the client decodes from the
  // envelope (0 for an id that is not a number), None when there is none.
  datatype Frame = Frame(id: Option<int>, body: string)

  // What a call's channel can carry.
  datatype Message = FromServer(frame: Frame) | ConnectionClosed(id: int)

  datatype End = EncodeError | WriteError | Got(message: Message) | TimedOut

  datatype Phase =
    | Numbered        // id drawn, nothing sent yet
    | Waiting         // registered and written
    | Expired         // the timer fired, entry not dropped yet
    | Ended(how: End)

  datatype Call = Call(
    id: int,
    phase: Phase,
    channel: seq<Message>,      // capacity 1
    pushed: seq<Message>)       // history: everything ever put into it

  datatype Reader =
    | Idle
    | Holding(call: nat, frame: Frame)   // entry claimed, lock released, not pushed yet
    | Stopped

  datatype State = State(
    nextId: int,
    calls: seq<Call>,
    responses: map<int, nat>,
    reader: Reader,
    events: seq<Frame>)         // frames handed on as events

  const INIT := State(0, [], map[], Idle, [])

  datatype Action =
    | Number                         // CallWithTimeout draws an id
    | EncodeFails(i: nat)
    | Send(i: nat, written: bool)    // registers and writes under one lock
    | Read(frame: Frame)
    | Push
    | Disconnect
    | Receive(i: nat)
    | Expire(i: nat)
    | Drop(i: nat)

  // An int64 addition.
  function Wrap(n: int): int {
    if n > MAX_INT64 then n - TWO_TO_THE_64 else n
  }

  // Zero and negative numbers are skipped, so an id is never 0.
  function NextId(n: int): int {
    if Wrap(n + 1) <= 0 then 1 else Wrap(n + 1)
  }

  predicate InPhase(st: State, i: nat, p: Phase) {
    i < |st.calls| && st.calls[i].phase == p
  }

  predicate HasRoom(st: State, i: nat) {
    i < |st.calls| && st.calls[i].channel == []
  }

  // A send to a full channel would block the reader.
  predicate Enabled(st: State, a: Action) {
    match a
    case Number => true
    case EncodeFails(i) => InPhase(st, i, Numbered)
    case Send(i, _) => InPhase(st, i, Numbered)
    case Read(_) => st.reader.Idle?
    case Push => st.reader.Holding? && HasRoom(st, st.reader.call)
    case Disconnect => st.reader.Idle? && forall id | id in st.responses :: HasRoom(st, st.responses[id])
    case Receive(i) => InPhase(st, i, Waiting) && st.calls[i].channel != []
    case Expire(i) => InPhase(st, i, Waiting)
    case Drop(i) => InPhase(st, i, Expired)
  }

  function Pushed(c: Call, m: Message): Call {
    c.(channel := c.channel + [m], pushed := c.pushed + [m])
  }

  function Received(c: Call): Call
    requires c.channel != []
  {
    c.(phase := Ended(Got(c.channel[0])), channel := c.channel[1..])
  }

  predicate Listed(st: State, i: nat)
    requires i < |st.calls|
  {
    st.calls[i].id in st.responses && st.responses[st.calls[i].id] == i
  }

  // What the disconnect loop does to one call.
  function Woken(st: State, i: nat): Call
    requires i < |st.calls|
  {
    if Listed(st, i) then Pushed(st.calls[i], ConnectionClosed(st.calls[i].id)) else st.calls[i]
  }

  function Next(st: State, a: Action): State
    requires Enabled(st, a)
  {
    match a
    case Number =>
      st.(nextId := NextId(st.nextId), calls := st.calls + [Call(NextId(st.nextId), Numbered, [], [])])
    case EncodeFails(i) => st.(calls := st.calls[i := st.calls[i].(phase := Ended(EncodeError))])
    case Send(i, written) =>
      if written then st.(calls := st.calls[i := st.calls[i].(phase := Waiting)], responses := st.responses[st.calls[i].id := i])
      else st.(calls := st.calls[i := st.calls[i].(phase := Ended(WriteError))], responses := st.responses - {st.calls[i].id})
    case Read(f) =>
      if f.id.Some? && f.id.value in st.responses then
        st.(reader := Holding(st.responses[f.id.value], f), responses := st.responses - {f.id.value})
      else st.(events := st.events + [f])
    case Push =>
      st.(calls := st.calls[st.reader.call := Pushed(st.calls[st.reader.call], FromServer(st.reader.frame))], reader := Idle)
    case Disconnect =>
      st.(calls := seq(|st.calls|, i requires 0 <= i < |st.calls| => Woken(st, i)), reader := Stopped)
    case Receive(i) => st.(calls := st.calls[i := Received(st.calls[i])])
    case Expire(i) => st.(calls := st.calls[i := st.calls[i].(phase := Expired)])
    case Drop(i) =>
      st.(calls := st.calls[i := st.calls[i].(phase := Ended(TimedOut))], responses := st.responses - {st.calls[i].id})
  }

  // ---- The invariant ------------------------------------------------------------------

  // Only its own id's response, or the news that the connection closed, ever
  // reaches a call; and at most one of them.
  predicate MessageOk(c: Call, m: Message) {
    match m
    case FromServer(f) => f.id == Some(c.id)
    case ConnectionClosed(id) => id == c.id
  }

  predicate CallOk(c: Call) {
    && c.id >= 1
    && |c.pushed| <= 1 && (forall m | m in c.pushed :: MessageOk(c, m))
    && match c.phase
       case Numbered => c.pushed == [] && c.channel == []
       case Waiting => c.channel == c.pushed
       case Expired => c.channel == c.pushed
       case Ended(how) =>
         match how
         case EncodeError => c.pushed == []
         case WriteError => c.pushed == []
         case Got(m) => c.pushed == [m] && c.channel == []
         case TimedOut => true
  }

  predicate CallsOk(calls: seq<Call>) {
    forall i | 0 <= i < |calls| :: CallOk(calls[i])
  }

  predicate Open(c: Call) {
    c.phase.Waiting? || c.phase.Expired?
  }

  // Until the reader stops, an entry belongs to an open call with that id which
  // was pushed nothing. (The disconnect loop leaves its entries behind.)
  predicate EntryOk(st: State, id: int, i: nat) {
    i < |st.calls| && st.calls[i].id == id && Open(st.calls[i]) && st.calls[i].pushed == []
  }

  predicate EntriesOk(st: State) {
    !st.reader.Stopped? ==> forall id | id in st.responses :: EntryOk(st, id, st.responses[id])
  }

  // A claimed call has no entry any more and was pushed nothing.
  predicate ReaderOk(st: State) {
    st.reader.Holding? ==>
      && st.reader.call < |st.calls|
      && var c := st.calls[st.reader.call];
         st.reader.frame.id == Some(c.id) && c.pushed == [] && c.channel == []
         && (Open(c) || c.phase == Ended(TimedOut)) && !Listed(st, st.reader.call)
  }

  predicate Inv(st: State) {
    CallsOk(st.calls) && EntriesOk(st) && ReaderOk(st)
  }

  // ---- Preservation -----------------------------------------------------------------------

  lemma PushedIsOk(c: Call, m: Message)
    requires CallOk(c) && c.pushed == [] && c.channel == [] && MessageOk(c, m)
    requires Open(c) || c.phase == Ended(TimedOut)
    ensures CallOk(Pushed(c, m))
  {
    assert Pushed(c, m).pushed == [m];
  }

  lemma ReceivedIsOk(c: Call)
    requires CallOk(c) && c.phase.Waiting? && c.channel != []
    ensures CallOk(Received(c))
  {
    assert c.pushed == [c.channel[0]];
  }

  lemma SendKeepsInv(st: State, i: nat, written: bool)
    requires Inv(st) && Enabled(st, Send(i, written))
    ensures Inv(Next(st, Send(i, written)))
  {
    var t := Next(st, Send(i, written));
    assert CallOk(st.calls[i]);
    if !st.reader.Stopped? {
      forall id | id in t.responses ensures EntryOk(t, id, t.responses[id]) {
        if id in st.responses {
          assert EntryOk(st, id, st.responses[id]);
        }
      }
    }
  }

  lemma ReadKeepsInv(st: State, f: Frame)
    requires Inv(st) && Enabled(st, Read(f))
    ensures Inv(Next(st, Read(f)))
  {
    var t := Next(st, Read(f));
    if f.id.Some? && f.id.value in st.responses {
      assert EntryOk(st, f.id.value, st.responses[f.id.value]);
      assert CallOk(st.calls[st.responses[f.id.value]]);
    }
    forall id | id in t.responses ensures EntryOk(t, id, t.responses[id]) {
      assert EntryOk(st, id, st.responses[id]);
    }
  }

  lemma PushKeepsInv(st: State)
    requires Inv(st) && Enabled(st, Push)
    ensures Inv(Next(st, Push))
  {
    var t := Next(st, Push);
    PushedIsOk(st.calls[st.reader.call], FromServer(st.reader.frame));
    forall id | id in t.responses ensures EntryOk(t, id, t.responses[id]) {
      assert EntryOk(st, id, st.responses[id]);
    }
  }

  lemma WokenIsOk(st: State, i: nat)
    requires Inv(st) && st.reader.Idle? && i < |st.calls|
    ensures CallOk(Woken(st, i))
  {
    assert CallOk(st.calls[i]);
    if Listed(st, i) {
      assert EntryOk(st, st.calls[i].id, i);
      PushedIsOk(st.calls[i], ConnectionClosed(st.calls[i].id));
    }
  }

  lemma DisconnectKeepsInv(st: State)
    requires Inv(st) && Enabled(st, Disconnect)
    ensures Inv(Next(st, Disconnect))
  {
    var t := Next(st, Disconnect);
    forall i | 0 <= i < |t.calls| ensures CallOk(t.calls[i]) {
      WokenIsOk(st, i);
    }
  }

  // A step that moves one call on, pushes nothing and leaves the table alone.
  lemma MoveKeepsInv(st: State, i: nat, c: Call)
    requires Inv(st) && i < |st.calls| && CallOk(c)
    requires c.id == st.calls[i].id && c.pushed == st.calls[i].pushed && (c.pushed == [] ==> c.channel == [])
    requires !st.reader.Stopped? ==> Open(c) || !Listed(st, i)
    requires st.calls[i].phase.Numbered? || (Open(st.calls[i]) && (Open(c) || c.phase == Ended(TimedOut) || c.pushed != []))
    ensures Inv(st.(calls := st.calls[i := c]))
  {
    var t := st.(calls := st.calls[i := c]);
    if !st.reader.Stopped? {
      forall id | id in t.responses ensures EntryOk(t, id, t.responses[id]) {
        assert EntryOk(st, id, st.responses[id]);
      }
    }
  }

  lemma ListedIsOpen(st: State, i: nat)
    requires Inv(st) && i < |st.calls| && !st.reader.Stopped?
    ensures Listed(st, i) ==> Open(st.calls[i]) && st.calls[i].pushed == []
  {
  }

  lemma DropEntryKeepsInv(st: State, id: int)
    requires Inv(st)
    ensures Inv(st.(responses := st.responses - {id}))
  {
  }

  lemma NumberKeepsInv(st: State)
    requires Inv(st)
    ensures Inv(Next(st, Number))
  {
    var t := Next(st, Number);
    assert CallOk(t.calls[|st.calls|]);
  }

  lemma NextKeepsInv(st: State, a: Action)
    requires Inv(st) && Enabled(st, a)
    ensures Inv(Next(st, a))
  {
    match a {
      case Number => NumberKeepsInv(st);
      case Send(i, written) => SendKeepsInv(st, i, written);
      case Read(f) => ReadKeepsInv(st, f);
      case Push => PushKeepsInv(st);
      case Disconnect => DisconnectKeepsInv(st);
      case EncodeFails(i) =>
        if !st.reader.Stopped? {
          ListedIsOpen(st, i);
        }
        MoveKeepsInv(st, i, st.calls[i].(phase := Ended(EncodeError)));
      case Receive(i) =>
        if !st.reader.Stopped? {
          ListedIsOpen(st, i);
        }
        ReceivedIsOk(st.calls[i]);
        MoveKeepsInv(st, i, Received(st.calls[i]));
      case Expire(i) => MoveKeepsInv(st, i, st.calls[i].(phase := Expired));
      case Drop(i) =>
        DropEntryKeepsInv(st, st.calls[i].id);
        MoveKeepsInv(st.(responses := st.responses - {st.calls[i].id}), i, st.calls[i].(phase := Ended(TimedOut)));
    }
  }

  // ---- Runs -------------------------------------------------------------------------------------

  predicate InFlight(c: Call) {
    !c.phase.Ended?
  }

  // No two unfinished calls share an id.
  predicate Distinct(st: State) {
    forall i, j | 0 <= i < j < |st.calls| && InFlight(st.calls[i]) && InFlight(st.calls[j]) ::
      st.calls[i].id != st.calls[j].id
  }

  // With `distinct`, ids never clash on the way.
  ghost predicate Reaches(acts: seq<Action>, st: State, distinct: bool) {
    && (distinct ==> Distinct(st))
    && if acts == [] then st == INIT
       else
         var n := |acts| - 1;
         exists pre :: Reaches(acts[..n], pre, distinct) && Enabled(pre, acts[n]) && st == Next(pre, acts[n])
  }

  lemma {:induction false} ReachableIsInv(acts: seq<Action>, st: State, distinct: bool)
    requires Reaches(acts, st, distinct)
    ensures Inv(st)
  {
    if acts != [] {
      var n := |acts| - 1;
      var pre :| Reaches(acts[..n], pre, distinct) && Enabled(pre, acts[n]) && st == Next(pre, acts[n]);
      ReachableIsInv(acts[..n], pre, distinct);
      NextKeepsInv(pre, acts[n]);
    }
  }

  // ---- Main results -----------------------------------------------------------------------------

  // A call has come exactly as far as its own steps took it.
  predicate AsDone(acts: seq<Action>, c: Call, i: nat) {
    && (EncodeFails(i) in acts <==> c.phase == Ended(EncodeError))
    && (Send(i, false) in acts <==> c.phase == Ended(WriteError))
    && (Send(i, true) in acts <==>
          c.phase.Waiting? || c.phase.Expired? || c.phase == Ended(TimedOut) || (c.phase.Ended? && c.phase.how.Got?))
    && (Receive(i) in acts <==> c.phase.Ended? && c.phase.how.Got?)
    && (Expire(i) in acts <==> c.phase.Expired? || c.phase == Ended(TimedOut))
    && (Drop(i) in acts <==> c.phase == Ended(TimedOut))
  }

  predicate ActsOn(a: Action, i: nat) {
    a in [EncodeFails(i), Send(i, true), Send(i, false), Receive(i), Expire(i), Drop(i)]
  }

  predicate NoneActsOn(acts: seq<Action>, i: nat) {
    forall k | 0 <= k < |acts| :: !ActsOn(acts[k], i)
  }

  lemma SnocMember(acts: seq<Action>, a: Action)
    ensures forall x :: x in acts + [a] <==> x in acts || x == a
  {
  }

  lemma StepAsDone(acts: seq<Action>, st: State, a: Action, i: nat)
    requires Enabled(st, a) && i < |st.calls| && AsDone(acts, st.calls[i], i)
    ensures i < |Next(st, a).calls| && AsDone(acts + [a], Next(st, a).calls[i], i)
  {
    SnocMember(acts, a);
  }

  lemma NewAsDone(acts: seq<Action>, st: State, a: Action, i: nat)
    requires Enabled(st, a) && |st.calls| <= i && NoneActsOn(acts, i)
    ensures if i < |Next(st, a).calls| then AsDone(acts + [a], Next(st, a).calls[i], i) else NoneActsOn(acts + [a], i)
  {
    SnocMember(acts, a);
    assert !ActsOn(a, i);
    assert forall k | 0 <= k < |acts| :: (acts + [a])[k] == acts[k];
  }

  lemma {:induction false} CallsAreAsDone(acts: seq<Action>, st: State, i: nat)
    requires Reaches(acts, st, false)
    ensures if i < |st.calls| then AsDone(acts, st.calls[i], i) else NoneActsOn(acts, i)
  {
    if acts != [] {
      var n := |acts| - 1;
      var pre :| Reaches(acts[..n], pre, false) && Enabled(pre, acts[n]) && st == Next(pre, acts[n]);
      CallsAreAsDone(acts[..n], pre, i);
      assert acts == acts[..n] + [acts[n]];
      if i < |pre.calls| {
        StepAsDone(acts[..n], pre, acts[n], i);
      } else {
        NewAsDone(acts[..n], pre, acts[n], i);
      }
    }
  }

  // Where what was pushed to a call came from.
  predicate CameFrom(acts: seq<Action>, m: Message) {
    if m.FromServer? then Read(m.frame) in acts else Disconnect in acts
  }

  predicate ReaderCameFrom(acts: seq<Action>, r: Reader) {
    r.Holding? ==> Read(r.frame) in acts
  }

  lemma StepCameFrom(acts: seq<Action>, st: State, a: Action, i: nat)
    requires Enabled(st, a) && ReaderCameFrom(acts, st.reader)
    requires i < |st.calls| ==> forall m | m in st.calls[i].pushed :: CameFrom(acts, m)
    ensures ReaderCameFrom(acts + [a], Next(st, a).reader)
    ensures i < |Next(st, a).calls| ==> forall m | m in Next(st, a).calls[i].pushed :: CameFrom(acts + [a], m)
  {
    SnocMember(acts, a);
    if i < |st.calls| {
      var c, d := st.calls[i], Next(st, a).calls[i];
      forall m | m in d.pushed ensures CameFrom(acts + [a], m) {
        assert m in c.pushed || (a == Push && m == FromServer(st.reader.frame)) || (a == Disconnect && m.ConnectionClosed?);
      }
    }
  }

  lemma {:induction false} PushesCameFrom(acts: seq<Action>, st: State, i: nat)
    requires Reaches(acts, st, false)
    ensures ReaderCameFrom(acts, st.reader)
    ensures i < |st.calls| ==> forall m | m in st.calls[i].pushed :: CameFrom(acts, m)
  {
    if acts != [] {
      var n := |acts| - 1;
      var pre :| Reaches(acts[..n], pre, false) && Enabled(pre, acts[n]) && st == Next(pre, acts[n]);
      PushesCameFrom(acts[..n], pre, i);
      assert acts == acts[..n] + [acts[n]];
      StepCameFrom(acts[..n], pre, acts[n], i);
    }
  }

  // In every reachable state, clashing ids or not: a call has ended in one of
  // five ways exactly if the run took that step for it, and if by a message then
  // by a response that was read for its own id or by the news that the connection
  // closed, the only message its channel ever carried.
  lemma CallsEndWithTheirOwn(acts: seq<Action>, st: State, i: nat)
    requires Reaches(acts, st, false) && i < |st.calls|
    ensures var c := st.calls[i];
      && AsDone(acts, c, i)
      && |c.pushed| <= 1
      && (c.phase.Ended? && c.phase.how.Got? ==>
            && c.pushed == [c.phase.how.message]
            && (c.phase.how.message.FromServer? ==>
                  c.phase.how.message.frame.id == Some(c.id) && Read(c.phase.how.message.frame) in acts)
            && (c.phase.how.message.ConnectionClosed? ==> c.phase.how.message.id == c.id && Disconnect in acts))
      && (c.phase.Ended? && (c.phase.how.EncodeError? || c.phase.how.WriteError?) ==> c.pushed == [])
  {
    ReachableIsInv(acts, st, false);
    CallsAreAsDone(acts, st, i);
    PushesCameFrom(acts, st, i);
    var c := st.calls[i];
    assert CallOk(c);
    if c.phase.Ended? && c.phase.how.Got? {
      assert c.phase.how.message in c.pushed;
    }
  }

  // ---- No frame is lost or doubled --------------------------------------------------------

  // How many calls were pushed this frame.
  function Claims(calls: seq<Call>, f: Frame): nat {
    if calls == [] then 0
    else
      var c := calls[|calls| - 1];
      Claims(calls[..|calls| - 1], f) + (if FromServer(f) in c.pushed then 1 else 0)
  }

  function Reads(acts: seq<Action>, f: Frame): nat {
    multiset(acts)[Read(f)]
  }

  predicate InHand(r: Reader, f: Frame) {
    r.Holding? && r.frame == f
  }

  predicate Accounted(acts: seq<Action>, st: State, f: Frame) {
    Reads(acts, f) == multiset(st.events)[f] + Claims(st.calls, f) + (if InHand(st.reader, f) then 1 else 0)
  }

  lemma {:induction false} ClaimsOfSame(calls: seq<Call>, others: seq<Call>, f: Frame)
    requires |calls| == |others|
    requires forall i | 0 <= i < |calls| :: FromServer(f) in calls[i].pushed <==> FromServer(f) in others[i].pushed
    ensures Claims(calls, f) == Claims(others, f)
  {
    if calls != [] {
      ClaimsOfSame(calls[..|calls| - 1], others[..|others| - 1], f);
    }
  }

  lemma {:induction false} ClaimsOfOneMore(calls: seq<Call>, others: seq<Call>, i: nat, f: Frame)
    requires |calls| == |others| && i < |calls|
    requires FromServer(f) !in calls[i].pushed && FromServer(f) in others[i].pushed
    requires forall j | 0 <= j < |calls| && j != i :: FromServer(f) in calls[j].pushed <==> FromServer(f) in others[j].pushed
    ensures Claims(others, f) == Claims(calls, f) + 1
  {
    var n := |calls| - 1;
    if i == n {
      ClaimsOfSame(calls[..n], others[..n], f);
    } else {
      ClaimsOfOneMore(calls[..n], others[..n], i, f);
    }
  }

  lemma ClaimsOfNew(calls: seq<Call>, c: Call, f: Frame)
    requires c.pushed == []
    ensures Claims(calls + [c], f) == Claims(calls, f)
  {
    assert (calls + [c])[..|calls|] == calls;
  }

  lemma StepClaims(st: State, a: Action, f: Frame)
    requires Inv(st) && Enabled(st, a)
    ensures Claims(Next(st, a).calls, f) == Claims(st.calls, f) + (if a == Push && st.reader.frame == f then 1 else 0)
  {
    var t := Next(st, a);
    if a.Number? {
      ClaimsOfNew(st.calls, t.calls[|st.calls|], f);
    } else if a == Push {
      var i := st.reader.call;
      assert t.calls[i].pushed == [FromServer(st.reader.frame)];
      if st.reader.frame == f {
        ClaimsOfOneMore(st.calls, t.calls, i, f);
      } else {
        ClaimsOfSame(st.calls, t.calls, f);
      }
    } else if a == Disconnect {
      ClaimsOfSame(st.calls, t.calls, f);
    } else {
      assert forall j | 0 <= j < |st.calls| :: t.calls[j].pushed == st.calls[j].pushed;
      ClaimsOfSame(st.calls, t.calls, f);
    }
  }

  lemma StepHands(st: State, a: Action, f: Frame)
    requires Enabled(st, a)
    ensures var t := Next(st, a);
      multiset(t.events)[f] + (if InHand(t.reader, f) then 1 else 0) + (if a == Push && st.reader.frame == f then 1 else 0)
      == multiset(st.events)[f] + (if InHand(st.reader, f) then 1 else 0) + (if a == Read(f) then 1 else 0)
  {
    if a.Read? {
      assert multiset(st.events + [a.frame]) == multiset(st.events) + multiset{a.frame};
    }
  }

  // Every frame read from the server, as often as it was read, is an event, or
  // the message of one call, or in the reader's hand.
  lemma {:induction false} FramesAreAccounted(acts: seq<Action>, st: State, f: Frame)
    requires Reaches(acts, st, false)
    ensures Accounted(acts, st, f)
  {
    if acts != [] {
      var n := |acts| - 1;
      var pre :| Reaches(acts[..n], pre, false) && Enabled(pre, acts[n]) && st == Next(pre, acts[n]);
      FramesAreAccounted(acts[..n], pre, f);
      ReachableIsInv(acts[..n], pre, false);
      StepClaims(pre, acts[n], f);
      StepHands(pre, acts[n], f);
      assert acts == acts[..n] + [acts[n]];
      assert multiset(acts) == multiset(acts[..n]) + multiset{acts[n]};
    }
  }

  // The reader always finds room: neither the push of a claimed response nor the
  // disconnect loop can block on a call's channel.
  lemma ReaderNeverBlocks(acts: seq<Action>, st: State)
    requires Reaches(acts, st, false)
    ensures st.reader.Holding? ==> Enabled(st, Push)
    ensures st.reader.Idle? ==> Enabled(st, Disconnect) && forall f :: Enabled(st, Read(f))
  {
    ReachableIsInv(acts, st, false);
    if st.reader.Idle? {
      forall id | id in st.responses ensures HasRoom(st, st.responses[id]) {
        assert EntryOk(st, id, st.responses[id]);
        assert CallOk(st.calls[st.responses[id]]);
      }
    }
  }

  // An end, once reached, stands.
  lemma EndedIsFinal(st: State, a: Action, i: nat)
    requires Enabled(st, a) && i < |st.calls| && st.calls[i].phase.Ended?
    ensures i < |Next(st, a).calls| && Next(st, a).calls[i].phase == st.calls[i].phase
  {
  }

  predicate Waits(st: State, i: nat)
    requires i < |st.calls|
  {
    && !st.reader.Stopped? && Open(st.calls[i]) && st.calls[i].pushed == []
    && !(st.reader.Holding? && st.reader.call == i)
  }

  // While the reader runs, an open call that was pushed nothing and is not being
  // pushed to is still in the table.
  predicate Addressable(st: State, i: nat)
    requires i < |st.calls|
  {
    Waits(st, i) ==> Listed(st, i)
  }

  lemma NextKeepsAddressable(st: State, a: Action, i: nat)
    requires Inv(st) && Enabled(st, a) && Distinct(st) && i < |st.calls| && Addressable(st, i)
    ensures i < |Next(st, a).calls| && Addressable(Next(st, a), i)
  {
    match a {
      case Send(j, _) => OtherCallKeepsAddressable(st, a, j, i);
      case Drop(j) => OtherCallKeepsAddressable(st, a, j, i);
      case _ =>
    }
  }

  lemma OtherCallKeepsAddressable(st: State, a: Action, j: nat, i: nat)
    requires a == Send(j, true) || a == Send(j, false) || a == Drop(j)
    requires Enabled(st, a) && Distinct(st) && i < |st.calls| && Addressable(st, i)
    ensures Addressable(Next(st, a), i)
  {
    if i != j && Open(st.calls[i]) {
      assert InFlight(st.calls[i]) && InFlight(st.calls[j]);
      assert st.calls[i].id != st.calls[j].id;
    }
  }

  lemma {:induction false} DistinctAreAddressable(acts: seq<Action>, st: State, i: nat)
    requires Reaches(acts, st, true) && i < |st.calls|
    ensures Addressable(st, i)
  {
    if acts != [] {
      var n := |acts| - 1;
      var pre :| Reaches(acts[..n], pre, true) && Enabled(pre, acts[n]) && st == Next(pre, acts[n]);
      ReachableIsInv(acts[..n], pre, true);
      if i < |pre.calls| {
        DistinctAreAddressable(acts[..n], pre, i);
        NextKeepsAddressable(pre, acts[n], i);
      }
    }
  }

  // With distinct ids in flight, a disconnect leaves a message in the channel of
  // every call then waiting: none is left to its timer.
  lemma DisconnectWakesAll(acts: seq<Action>, st: State, i: nat)
    requires Reaches(acts, st, true) && st.reader.Idle? && i < |st.calls| && st.calls[i].phase.Waiting?
    ensures Enabled(st, Disconnect) && Enabled(Next(st, Disconnect), Receive(i))
    ensures st.calls[i].channel == [] ==> Next(st, Disconnect).calls[i].channel == [ConnectionClosed(st.calls[i].id)]
  {
    ReachableIsInv(acts, st, true);
    DistinctAreAddressable(acts, st, i);
    assert CallOk(st.calls[i]);
    IdleCanDisconnect(st);
  }

  // ---- After the reader has stopped --------------------------------------------------------

  predicate NotSent(acts: seq<Action>, i: nat) {
    Send(i, true) !in acts && Send(i, false) !in acts
  }

  predicate Unsent(c: Call) {
    c.phase == Numbered || c.phase == Ended(EncodeError)
  }

  lemma StepOfUnsent(st: State, a: Action, i: nat)
    requires Enabled(st, a) && i < |Next(st, a).calls| && a != Send(i, true) && a != Send(i, false)
    requires i < |st.calls| ==> Unsent(st.calls[i])
    ensures Unsent(Next(st, a).calls[i])
  {
  }

  lemma {:induction false} NotSentIsUnsent(acts: seq<Action>, st: State, i: nat)
    requires Reaches(acts, st, false) && i < |st.calls| && NotSent(acts, i)
    ensures Unsent(st.calls[i])
  {
    var n := |acts| - 1;
    var pre :| Reaches(acts[..n], pre, false) && Enabled(pre, acts[n]) && st == Next(pre, acts[n]);
    assert acts == acts[..n] + [acts[n]];
    if i < |pre.calls| {
      NotSentIsUnsent(acts[..n], pre, i);
    }
    StepOfUnsent(pre, acts[n], i);
  }

  // Nothing is pushed once the reader has stopped.
  lemma StoppedPushesNothing(st: State, a: Action, i: nat)
    requires Inv(st) && Enabled(st, a) && st.reader.Stopped? && i < |Next(st, a).calls|
    requires i < |st.calls| ==> st.calls[i].pushed == []
    ensures Next(st, a).reader.Stopped? && Next(st, a).calls[i].pushed == []
  {
  }

  lemma DisconnectSkipsUnsent(st: State, i: nat)
    requires Inv(st) && Enabled(st, Disconnect) && i < |st.calls| && Unsent(st.calls[i])
    ensures Next(st, Disconnect).calls[i].pushed == []
  {
    ListedIsOpen(st, i);
    assert CallOk(st.calls[i]);
  }

  lemma {:induction false} LateCallsGetNothing(acts: seq<Action>, n: nat, st: State, i: nat)
    requires Reaches(acts, st, false) && n < |acts| && acts[n] == Disconnect
    requires i < |st.calls| && NotSent(acts[..n], i)
    ensures st.reader.Stopped? && st.calls[i].pushed == []
    decreases |acts|
  {
    var m := |acts| - 1;
    var pre :| Reaches(acts[..m], pre, false) && Enabled(pre, acts[m]) && st == Next(pre, acts[m]);
    ReachableIsInv(acts[..m], pre, false);
    if n == m {
      NotSentIsUnsent(acts[..m], pre, i);
      DisconnectSkipsUnsent(pre, i);
    } else {
      assert acts[..m][n] == acts[n] && acts[..m][..n] == acts[..n];
      StaysStopped(acts[..m], n, pre);
      if i < |pre.calls| {
        LateCallsGetNothing(acts[..m], n, pre, i);
      }
      StoppedPushesNothing(pre, acts[m], i);
    }
  }

  lemma {:induction false} StaysStopped(acts: seq<Action>, n: nat, st: State)
    requires Reaches(acts, st, false) && n < |acts| && acts[n] == Disconnect
    ensures st.reader.Stopped?
    decreases |acts|
  {
    var m := |acts| - 1;
    var pre :| Reaches(acts[..m], pre, false) && Enabled(pre, acts[m]) && st == Next(pre, acts[m]);
    if n < m {
      assert acts[..m][n] == acts[n];
      StaysStopped(acts[..m], n, pre);
    }
  }

  // A call not yet sent when the connection is lost is never told so: it ends by
  // an encoding or write error or by its own timer, and in no other way.
  lemma {:induction false} LateCallsEndAlone(acts: seq<Action>, n: nat, st: State, i: nat)
    requires Reaches(acts, st, false) && n < |acts| && acts[n] == Disconnect
    requires i < |st.calls| && NotSent(acts[..n], i)
    ensures st.calls[i].phase.Ended? ==> st.calls[i].phase.how in {EncodeError, WriteError, TimedOut}
  {
    LateCallsGetNothing(acts, n, st, i);
    ReachableIsInv(acts, st, false);
    assert CallOk(st.calls[i]);
  }

  lemma IdleCanDisconnect(st: State)
    requires Inv(st) && st.reader.Idle?
    ensures Enabled(st, Disconnect)
  {
    forall id | id in st.responses ensures HasRoom(st, st.responses[id]) {
      assert EntryOk(st, id, st.responses[id]);
      assert CallOk(st.calls[st.responses[id]]);
    }
  }

  // ... and a response in any order relative to the others ends exactly the call
  // that asked for it, if it comes before that call's timer.
  lemma ResponseFindsItsCall(acts: seq<Action>, st: State, i: nat, body: string)
    requires Reaches(acts, st, true) && st.reader.Idle?
    requires i < |st.calls| && st.calls[i].phase.Waiting? && st.calls[i].channel == []
    ensures var f := Frame(Some(st.calls[i].id), body);
      && Enabled(st, Read(f)) && Enabled(Next(st, Read(f)), Push)
      && var t := Next(Next(st, Read(f)), Push);
      && Enabled(t, Receive(i))
      && Next(t, Receive(i)).calls == st.calls[i := Next(t, Receive(i)).calls[i]]
      && Next(t, Receive(i)).calls[i].phase == Ended(Got(FromServer(f)))
  {
    ReachableIsInv(acts, st, true);
    DistinctAreAddressable(acts, st, i);
    assert CallOk(st.calls[i]);
    var f := Frame(Some(st.calls[i].id), body);
    var mid := Next(st, Read(f));
    assert mid.reader == Holding(i, f) && mid.calls == st.calls;
    var t := Next(mid, Push);
    assert t.calls[i].channel == [FromServer(f)];
  }

  // A frame whose id is not a number decodes to 0 and never claims a call.
  lemma JunkNeverMatches(acts: seq<Action>, st: State, f: Frame)
    requires Reaches(acts, st, false) && st.reader.Idle? && f.id.Some? && f.id.value <= 0
    ensures Next(st, Read(f)) == st.(events := st.events + [f])
  {
    ReachableIsInv(acts, st, false);
    forall id | id in st.responses ensures id >= 1 {
      assert EntryOk(st, id, st.responses[id]);
      assert CallOk(st.calls[st.responses[id]]);
    }
  }

  // ---- When ids are distinct ----------------------------------------------------------------

  // The id of the n-th call.
  function IdOf(n: nat): int {
    n % MAX_INT64 + 1
  }

  lemma IdOfSteps(n: nat)
    ensures NextId(IdOf(n)) == IdOf(n + 1)
  {
    var q, r := n / MAX_INT64, n % MAX_INT64;
    if r + 1 < MAX_INT64 {
      assert n + 1 == q * MAX_INT64 + (r + 1);
    } else {
      assert n + 1 == (q + 1) * MAX_INT64;
    }
  }

  predicate IdsOk(st: State) {
    && st.nextId == (if st.calls == [] then 0 else IdOf(|st.calls| - 1))
    && forall i | 0 <= i < |st.calls| :: st.calls[i].id == IdOf(i)
  }

  lemma SameIds(st: State, a: Action)
    requires Enabled(st, a) && !a.Number?
    ensures Next(st, a).nextId == st.nextId && |Next(st, a).calls| == |st.calls|
    ensures forall i | 0 <= i < |st.calls| :: Next(st, a).calls[i].id == st.calls[i].id
  {
  }

  lemma NextKeepsIds(st: State, a: Action)
    requires IdsOk(st) && Enabled(st, a)
    ensures IdsOk(Next(st, a))
  {
    if !a.Number? {
      SameIds(st, a);
    } else if st.calls != [] {
      IdOfSteps(|st.calls| - 1);
    }
  }

  lemma {:induction false} IdsCount(acts: seq<Action>, st: State, distinct: bool)
    requires Reaches(acts, st, distinct)
    ensures IdsOk(st)
  {
    if acts != [] {
      var n := |acts| - 1;
      var pre :| Reaches(acts[..n], pre, distinct) && Enabled(pre, acts[n]) && st == Next(pre, acts[n]);
      IdsCount(acts[..n], pre, distinct);
      NextKeepsIds(pre, acts[n]);
    }
  }

  // Two calls share an id exactly if their numbers differ by a multiple of 2^63 - 1.
  lemma SameIdIff(acts: seq<Action>, st: State, i: nat, j: nat)
    requires Reaches(acts, st, false) && i < j < |st.calls|
    ensures st.calls[i].id == st.calls[j].id <==> (j - i) % MAX_INT64 == 0
    ensures st.calls[i].id == i % 0x7fff_ffff_ffff_ffff + 1
  {
    IdsCount(acts, st, false);
    SameRemainder(i, j, MAX_INT64);
  }

  lemma SameRemainder(i: nat, j: nat, m: nat)
    requires i < j && m > 0
    ensures i % m == j % m <==> (j - i) % m == 0
  {
    var a, b := i / m, j / m;
    assert i == a * m + i % m && j == b * m + j % m;
    var d := (j - i) / m;
    assert j - i == d * m + (j - i) % m;
    if i % m == j % m {
      assert j - i == (b - a) * m;
      ModOfMultiple(b - a, m);
    } else if (j - i) % m == 0 {
      assert j == (a + d) * m + i % m;
      ModUnique(a + d, i % m, m);
      assert false;
    }
  }

  lemma ModOfMultiple(k: int, m: nat)
    requires m > 0
    ensures (k * m) % m == 0
  {
    ModUnique(k, 0, m);
  }

  lemma AtLeastOnce(k: int, m: int)
    requires m >= 0
    ensures k >= 1 ==> k * m >= m
    ensures k <= -1 ==> k * m <= -m
  {
    if k >= 1 {
      assert k * m == m + (k - 1) * m;
    } else if k <= -1 {
      assert k * m == -m + (k + 1) * m;
    }
  }

  lemma ModUnique(q: int, r: int, m: nat)
    requires 0 <= r < m
    ensures (q * m + r) % m == r
  {
    var n := q * m + r;
    var q2, r2 := n / m, n % m;
    assert n == q2 * m + r2;
    assert (q - q2) * m == r2 - r;
    AtLeastOnce(q - q2, m);
  }

  // So in every run of up to 2^63 - 1 calls ids are distinct throughout, and the
  // results above that ask for it apply.
  lemma {:induction false} ShortRunsAreDistinct(acts: seq<Action>, st: State)
    requires Reaches(acts, st, false) && |st.calls| <= MAX_INT64
    ensures Reaches(acts, st, true)
  {
    IdsCount(acts, st, false);
    FewAreDistinct(st);
    if acts != [] {
      var n := |acts| - 1;
      var pre :| Reaches(acts[..n], pre, false) && Enabled(pre, acts[n]) && st == Next(pre, acts[n]);
      CallsOnlyGrow(pre, acts[n]);
      ShortRunsAreDistinct(acts[..n], pre);
    }
  }

  lemma CallsOnlyGrow(st: State, a: Action)
    requires Enabled(st, a)
    ensures |st.calls| <= |Next(st, a).calls|
  {
  }

  lemma IdOfSmall(n: nat)
    requires n < MAX_INT64
    ensures IdOf(n) == n + 1
  {
  }

  lemma FewAreDistinct(st: State)
    requires IdsOk(st) && |st.calls| <= MAX_INT64
    ensures Distinct(st)
  {
    forall i, j | 0 <= i < j < |st.calls| ensures st.calls[i].id != st.calls[j].id {
      IdOfSmall(i);
      IdOfSmall(j);
    }
  }
}
