// Event subscription and broadcast (internal/transport/server.go) as a
// transition system. Each action is one atomic step of one goroutine: a section
// under the server lock, one channel operation, or one write.
module EventStream {
  import opened Basics

  type Conn = nat

  datatype Event = Event(topic: string, runId: string, body: string)

  // The glob matcher, path.Match(pattern, name); nothing is assumed about it.
  type Glob = (string, string) -> bool

  const BUFFER := 256

  // ---- Filters ----------------------------------------------------------------

  predicate TopicMatches(glob: Glob, topic: string, topics: seq<string>) {
    topics == [] || exists p | p in topics :: glob(p, topic)
  }

  predicate ScopeMatches(runId: string, scope: string) {
    scope == "" || scope == "global" || ("run:" <= scope && runId == scope[4..])
  }

  // An event with no run id passes a run scope only if that scope names the
  // empty run; a scope of any other form lets nothing through.
  predicate Matches(glob: Glob, e: Event, topics: seq<string>, scope: string) {
    TopicMatches(glob, e.topic, topics) && ScopeMatches(e.runId, scope)
  }

  // What a filter asks for, in the words a client sends.
  lemma MatchesIff(glob: Glob, e: Event, topics: seq<string>, scope: string)
    ensures TopicMatches(glob, e.topic, topics) <==> |topics| == 0 || exists k | 0 <= k < |topics| :: glob(topics[k], e.topic)
    ensures Matches(glob, e, topics, scope)
       <==> (|topics| == 0 || exists k | 0 <= k < |topics| :: glob(topics[k], e.topic))
            && (scope == "" || scope == "global" || scope == "run:" + e.runId)
  {
    if "run:" <= scope {
      assert scope == "run:" + scope[4..];
    } else {
      assert scope != "run:" + e.runId;
    }
  }

  // The live events a filter lets through, in order.
  function LiveFilter(glob: Glob, evs: seq<Event>, topics: seq<string>, scope: string): seq<Event> {
    if evs == [] then []
    else
      var n := |evs| - 1;
      LiveFilter(glob, evs[..n], topics, scope) + (if Matches(glob, evs[n], topics, scope) then [evs[n]] else [])
  }

  // The recorded events a replay sends: topics count, the scope does not.
  function ReplayFilter(glob: Glob, evs: seq<Event>, topics: seq<string>): seq<Event> {
    if evs == [] then []
    else
      var n := |evs| - 1;
      ReplayFilter(glob, evs[..n], topics) + (if TopicMatches(glob, evs[n].topic, topics) then [evs[n]] else [])
  }

  // ---- State -------------------------------------------------------------------

  // Why a subscription left the server's table.
  datatype Departure = Replaced | Evicted | Removed

  datatype Writer =
    | Waiting                  // receiving from the channel
    | Writing(event: Event)    // one message taken, write in progress
    | Stopping                 // left its loop
    | Exited                   // has run its last statement

  datatype Sub = Sub(
    conn: Conn,
    topics: seq<string>,
    scope: string,
    buf: seq<Event>,           // the channel's contents
    closes: nat,               // how often the channel was closed
    active: bool,
    detached: bool,
    trace: seq<Event>,         // the recorded events the replay scan returns
    cursor: nat,               // how many of them it has handled
    broke: bool,               // the scan stopped because the channel was closed
    writer: Writer,
    writeFailed: bool,
    closedConn: bool,          // this writer closed the connection
    // history
    dequeued: seq<Event>,
    written: seq<Event>,
    activatedAt: Option<nat>,           // length of the log then
    left: Option<(Departure, nat)>)     // why, and the length of the log then

  datatype State = State(
    subs: seq<Sub>,            // every subscription ever made
    table: map<Conn, nat>,     // the server's subscribers map
    log: seq<Event>)           // every event broadcast so far, in lock order

  const INIT := State([], map[], [])

  datatype Action =
    | Register(conn: Conn, topics: seq<string>, scope: string, trace: seq<Event>)
    | ReplayNext(i: nat)
    | Activate(i: nat)
    | Broadcast(event: Event)
    | Dequeue(i: nat)
    | WriteOk(i: nat)
    | WriteFail(i: nat)
    | SeeClosed(i: nat)
    | Exit(i: nat)
    | Remove(conn: Conn)

  function NewSub(conn: Conn, topics: seq<string>, scope: string, trace: seq<Event>): Sub {
    Sub(conn, topics, scope, [], 0, false, false, trace, 0, false, Waiting, false, false, [], [], None, None)
  }

  predicate Open(s: Sub) {
    s.closes == 0
  }

  predicate ReplayDone(s: Sub) {
    s.broke || s.cursor >= |s.trace|
  }

  predicate InRange(st: State, i: nat) {
    i < |st.subs|
  }

  // When a step can happen at all. A replay send on a full open channel blocks.
  predicate Enabled(glob: Glob, st: State, a: Action) {
    match a
    case Register(_, _, _, _) => true
    case ReplayNext(i) =>
      && InRange(st, i) && !st.subs[i].active && !ReplayDone(st.subs[i])
      && (TopicMatches(glob, st.subs[i].trace[st.subs[i].cursor].topic, st.subs[i].topics)
          ==> !Open(st.subs[i]) || |st.subs[i].buf| < BUFFER)
    case Activate(i) => InRange(st, i) && !st.subs[i].active && ReplayDone(st.subs[i])
    case Broadcast(_) => true
    case Dequeue(i) => InRange(st, i) && st.subs[i].writer == Waiting && st.subs[i].buf != []
    case WriteOk(i) => InRange(st, i) && st.subs[i].writer.Writing?
    case WriteFail(i) => InRange(st, i) && st.subs[i].writer.Writing?
    case SeeClosed(i) => InRange(st, i) && st.subs[i].writer == Waiting && st.subs[i].buf == [] && !Open(st.subs[i])
    case Exit(i) => InRange(st, i) && st.subs[i].writer == Stopping
    case Remove(_) => true
  }

  // Closing a subscription's channel as it leaves the table.
  function Depart(s: Sub, why: Departure, at: nat): Sub {
    s.(closes := s.closes + 1, detached := s.detached || why == Replaced, left := Some((why, at)))
  }

  // What one broadcast does to one subscription.
  function Receive(glob: Glob, s: Sub, inTable: bool, e: Event, at: nat): Sub {
    if !inTable || !s.active || !Matches(glob, e, s.topics, s.scope) then s
    else if |s.buf| < BUFFER then s.(buf := s.buf + [e])
    else Depart(s, Evicted, at)
  }

  // The replay goroutine handles one record.
  function Replay(glob: Glob, s: Sub): Sub
    requires s.cursor < |s.trace|
  {
    var e := s.trace[s.cursor];
    if !TopicMatches(glob, e.topic, s.topics) then s.(cursor := s.cursor + 1)
    else if Open(s) then s.(cursor := s.cursor + 1, buf := s.buf + [e])
    else s.(broke := true)
  }

  function GoLive(s: Sub, now: nat): Sub {
    s.(active := true, activatedAt := Some(now))
  }

  // The writer goroutine's steps.
  function Take(s: Sub): Sub
    requires s.buf != []
  {
    s.(buf := s.buf[1..], writer := Writing(s.buf[0]), dequeued := s.dequeued + [s.buf[0]])
  }

  function Wrote(s: Sub): Sub
    requires s.writer.Writing?
  {
    s.(writer := Waiting, written := s.written + [s.writer.event])
  }

  function Failed(s: Sub): Sub {
    s.(writer := Stopping, writeFailed := true)
  }

  function Drained(s: Sub): Sub {
    s.(writer := Stopping)
  }

  function Finished(s: Sub): Sub {
    s.(writer := Exited, closedConn := !s.detached)
  }

  predicate InTable(st: State, i: nat)
    requires InRange(st, i)
  {
    st.subs[i].conn in st.table && st.table[st.subs[i].conn] == i
  }

  predicate TableOk(st: State) {
    forall c | c in st.table :: st.table[c] < |st.subs| && st.subs[st.table[c]].conn == c
  }

  // A connection whose subscription the broadcast evicts.
  predicate Evicts(glob: Glob, st: State, c: Conn, e: Event)
    requires c in st.table && st.table[c] < |st.subs|
  {
    var s := st.subs[st.table[c]];
    s.active && Matches(glob, e, s.topics, s.scope) && |s.buf| >= BUFFER
  }

  // Takes a connection's subscription, if it has one, out of the table.
  function TakeOut(st: State, c: Conn, why: Departure): State
    requires TableOk(st)
  {
    if c in st.table then
      st.(subs := st.subs[st.table[c] := Depart(st.subs[st.table[c]], why, |st.log|)], table := st.table - {c})
    else st
  }

  // Offers an event to every listed subscription.
  function Offer(glob: Glob, st: State, e: Event): State
    requires TableOk(st)
  {
    State(
      seq(|st.subs|, i requires 0 <= i < |st.subs| => Receive(glob, st.subs[i], InTable(st, i), e, |st.log|)),
      map c | c in st.table && !Evicts(glob, st, c, e) :: st.table[c],
      st.log + [e])
  }

  function Next(glob: Glob, st: State, a: Action): State
    requires Enabled(glob, st, a) && TableOk(st)
  {
    match a
    case Register(c, topics, scope, trace) =>
      var mid := TakeOut(st, c, Replaced);
      mid.(subs := mid.subs + [NewSub(c, topics, scope, trace)], table := mid.table[c := |mid.subs|])
    case ReplayNext(i) => st.(subs := st.subs[i := Replay(glob, st.subs[i])])
    case Activate(i) => st.(subs := st.subs[i := GoLive(st.subs[i], |st.log|)])
    case Broadcast(e) => Offer(glob, st, e)
    case Dequeue(i) => st.(subs := st.subs[i := Take(st.subs[i])])
    case WriteOk(i) => st.(subs := st.subs[i := Wrote(st.subs[i])])
    case WriteFail(i) => st.(subs := st.subs[i := Failed(st.subs[i])])
    case SeeClosed(i) => st.(subs := st.subs[i := Drained(st.subs[i])])
    case Exit(i) => st.(subs := st.subs[i := Finished(st.subs[i])])
    case Remove(c) => TakeOut(st, c, Removed)
  }

  // ---- The invariant --------------------------------------------------------------

  function Window(log: seq<Event>, lo: nat, hi: nat): seq<Event> {
    if lo <= hi <= |log| then log[lo..hi] else []
  }

  // From activation until it left the table (or now).
  function LiveWindow(s: Sub, log: seq<Event>): seq<Event> {
    if s.activatedAt.None? then []
    else Window(log, s.activatedAt.value, if s.left.Some? then s.left.value.1 else |log|)
  }

  function Replayed(glob: Glob, s: Sub): seq<Event>
    requires s.cursor <= |s.trace|
  {
    ReplayFilter(glob, s.trace[..s.cursor], s.topics)
  }

  // The simple specification: recorded events first, then every matching event
  // of the live window, nothing skipped and nothing reordered.
  function Stream(glob: Glob, s: Sub, log: seq<Event>): seq<Event>
    requires s.cursor <= |s.trace|
  {
    Replayed(glob, s) + LiveFilter(glob, LiveWindow(s, log), s.topics, s.scope)
  }

  predicate WriterOk(s: Sub) {
    && s.written <= s.dequeued
    && (s.writer.Waiting? ==> s.written == s.dequeued && !s.writeFailed)
    && (s.writer.Writing? ==> s.dequeued == s.written + [s.writer.event] && !s.writeFailed)
    && (s.writer.Stopping? || s.writer.Exited? ==> s.writeFailed || (!Open(s) && s.buf == [] && s.written == s.dequeued))
    && (s.closedConn ==> s.writer.Exited? && (s.writeFailed || (s.left.Some? && s.left.value.0 != Replaced)))
    && (s.writer.Exited? && !s.closedConn ==> s.left.Some? && s.left.value.0 == Replaced)
  }

  predicate HistoryOk(s: Sub, now: nat) {
    && s.closes <= 1
    && (s.closes == 1 <==> s.left.Some?)
    && (s.detached <==> s.left.Some? && s.left.value.0 == Replaced)
    && (s.active <==> s.activatedAt.Some?)
    && (s.active ==> s.activatedAt.value <= now && ReplayDone(s))
    && (s.left.Some? ==> s.left.value.1 <= now)
    && s.cursor <= |s.trace|
    && (s.broke ==> !Open(s))
    && |s.buf| <= BUFFER
  }

  predicate SubOk(glob: Glob, s: Sub, log: seq<Event>) {
    && HistoryOk(s, |log|)
    && WriterOk(s)
    && s.dequeued + s.buf == Stream(glob, s, log)
  }

  // A subscription is in the table exactly until it leaves it.
  predicate Listed(st: State) {
    forall i | 0 <= i < |st.subs| :: st.subs[i].left.None? <==> InTable(st, i)
  }

  predicate Inv(glob: Glob, st: State) {
    && TableOk(st)
    && Listed(st)
    && forall i | 0 <= i < |st.subs| :: SubOk(glob, st.subs[i], st.log)
  }

  // ---- Preservation ------------------------------------------------------------------

  lemma LiveFilterSnoc(glob: Glob, evs: seq<Event>, e: Event, topics: seq<string>, scope: string)
    ensures LiveFilter(glob, evs + [e], topics, scope)
         == LiveFilter(glob, evs, topics, scope) + (if Matches(glob, e, topics, scope) then [e] else [])
  {
    assert (evs + [e])[..|evs|] == evs;
  }

  // Replacing one subscription by another that is still in order.
  lemma UpdateKeepsInv(glob: Glob, st: State, i: nat, s: Sub)
    requires Inv(glob, st) && i < |st.subs|
    requires SubOk(glob, s, st.log) && s.conn == st.subs[i].conn && s.left == st.subs[i].left
    ensures Inv(glob, st.(subs := st.subs[i := s]))
  {
    var t := st.(subs := st.subs[i := s]);
    forall j | 0 <= j < |t.subs| ensures t.subs[j].left.None? <==> InTable(t, j) {
      assert st.subs[j].left.None? <==> InTable(st, j);
    }
  }

  lemma ReplayedSnoc(glob: Glob, s: Sub)
    requires s.cursor < |s.trace|
    ensures var e := s.trace[s.cursor];
      ReplayFilter(glob, s.trace[..s.cursor + 1], s.topics)
      == ReplayFilter(glob, s.trace[..s.cursor], s.topics) + (if TopicMatches(glob, e.topic, s.topics) then [e] else [])
  {
    assert s.trace[..s.cursor + 1][..s.cursor] == s.trace[..s.cursor];
  }

  // Replay runs before activation, so it still extends the stream at its end.
  lemma ReplayExtends(glob: Glob, s: Sub, log: seq<Event>)
    requires HistoryOk(s, |log|) && !s.active && !ReplayDone(s)
    ensures Stream(glob, Replay(glob, s), log)
         == Stream(glob, s, log)
            + (if Open(s) && TopicMatches(glob, s.trace[s.cursor].topic, s.topics) then [s.trace[s.cursor]] else [])
  {
    ReplayedSnoc(glob, s);
  }

  lemma ReplayKeepsSub(glob: Glob, s: Sub, log: seq<Event>)
    requires SubOk(glob, s, log) && !s.active && !ReplayDone(s)
    requires TopicMatches(glob, s.trace[s.cursor].topic, s.topics) ==> !Open(s) || |s.buf| < BUFFER
    ensures SubOk(glob, Replay(glob, s), log)
  {
    ReplayExtends(glob, s, log);
    var e := s.trace[s.cursor];
    Assoc(s.dequeued, s.buf, [e]);
  }

  lemma GoLiveKeepsSub(glob: Glob, s: Sub, log: seq<Event>)
    requires SubOk(glob, s, log) && !s.active && ReplayDone(s)
    ensures SubOk(glob, GoLive(s, |log|), log)
  {
    assert LiveWindow(GoLive(s, |log|), log) == [];
  }

  // The stream does not depend on the writer.
  lemma SameStream(glob: Glob, s: Sub, t: Sub, log: seq<Event>)
    requires s.cursor <= |s.trace|
    requires t.trace == s.trace && t.cursor == s.cursor && t.topics == s.topics && t.scope == s.scope
    requires t.activatedAt == s.activatedAt && t.left == s.left
    ensures Stream(glob, t, log) == Stream(glob, s, log)
  {
  }

  lemma TakeKeepsSub(glob: Glob, s: Sub, log: seq<Event>)
    requires SubOk(glob, s, log) && s.writer.Waiting? && s.buf != []
    ensures SubOk(glob, Take(s), log)
  {
    SameStream(glob, s, Take(s), log);
    assert s.dequeued + [s.buf[0]] + s.buf[1..] == s.dequeued + s.buf;
  }

  lemma WriterKeepsSub(glob: Glob, s: Sub, t: Sub, log: seq<Event>)
    requires SubOk(glob, s, log)
    requires (s.writer.Writing? && (t == Wrote(s) || t == Failed(s)))
          || (s.writer.Waiting? && s.buf == [] && !Open(s) && t == Drained(s))
          || (s.writer.Stopping? && t == Finished(s))
    ensures SubOk(glob, t, log)
  {
    SameStream(glob, s, t, log);
  }

  // Leaving the table freezes the live window where it is.
  lemma DepartKeepsSub(glob: Glob, s: Sub, why: Departure, log: seq<Event>)
    requires SubOk(glob, s, log) && s.left.None?
    ensures SubOk(glob, Depart(s, why, |log|), log)
  {
    var t := Depart(s, why, |log|);
    assert LiveWindow(t, log) == LiveWindow(s, log);
  }

  lemma WindowSnoc(log: seq<Event>, e: Event, a: nat)
    requires a <= |log|
    ensures (log + [e])[a..|log| + 1] == log[a..|log|] + [e]
    ensures (log + [e])[a..|log|] == log[a..|log|]
  {
  }

  // One more event in the log extends exactly the streams whose window is live.
  lemma LiveWindowSnoc(glob: Glob, s: Sub, log: seq<Event>, e: Event)
    requires HistoryOk(s, |log|)
    ensures var live := LiveWindow(s, log);
      LiveWindow(s, log + [e]) == if s.left.None? && s.active then live + [e] else live
  {
    if s.activatedAt.Some? {
      if s.left.Some? {
        var hi := s.left.value.1;
        assert (log + [e])[..hi] == log[..hi];
        assert Window(log + [e], s.activatedAt.value, hi) == Window(log, s.activatedAt.value, hi);
      } else {
        WindowSnoc(log, e, s.activatedAt.value);
      }
    }
  }

  lemma StreamSnoc(glob: Glob, s: Sub, log: seq<Event>, e: Event)
    requires HistoryOk(s, |log|)
    ensures Stream(glob, s, log + [e])
         == Stream(glob, s, log) + (if s.left.None? && s.active && Matches(glob, e, s.topics, s.scope) then [e] else [])
  {
    LiveWindowSnoc(glob, s, log, e);
    LiveFilterSnoc(glob, LiveWindow(s, log), e, s.topics, s.scope);
  }

  lemma EvictedStream(glob: Glob, s: Sub, log: seq<Event>, e: Event)
    requires HistoryOk(s, |log|) && s.left.None?
    ensures Stream(glob, Depart(s, Evicted, |log|), log + [e]) == Stream(glob, s, log)
  {
    if s.activatedAt.Some? {
      WindowSnoc(log, e, s.activatedAt.value);
    }
  }

  lemma ReceiveKeepsSub(glob: Glob, s: Sub, inTable: bool, e: Event, log: seq<Event>)
    requires SubOk(glob, s, log) && (s.left.None? <==> inTable)
    ensures SubOk(glob, Receive(glob, s, inTable, e, |log|), log + [e])
  {
    var t := Receive(glob, s, inTable, e, |log|);
    StreamSnoc(glob, s, log, e);
    if t.left != s.left {
      EvictedStream(glob, s, log, e);
    } else {
      SameStream(glob, s, t, log + [e]);
      if t.buf != s.buf {
        Assoc(s.dequeued, s.buf, [e]);
      }
    }
  }

  // A broadcast closes exactly what it takes out of the table.
  lemma OfferKeepsListed(glob: Glob, st: State, e: Event)
    requires TableOk(st) && Listed(st)
    ensures TableOk(Offer(glob, st, e)) && Listed(Offer(glob, st, e))
  {
    var t := Offer(glob, st, e);
    forall i | 0 <= i < |st.subs| ensures t.subs[i].left.None? <==> InTable(t, i) {
      assert st.subs[i].left.None? <==> InTable(st, i);
    }
  }

  lemma {:induction false} BroadcastKeepsInv(glob: Glob, st: State, e: Event)
    requires Inv(glob, st)
    ensures Inv(glob, Offer(glob, st, e))
  {
    var t := Offer(glob, st, e);
    OfferKeepsListed(glob, st, e);
    forall i | 0 <= i < |t.subs| ensures SubOk(glob, t.subs[i], t.log) {
      assert st.subs[i].left.None? <==> InTable(st, i);
      ReceiveKeepsSub(glob, st.subs[i], InTable(st, i), e, st.log);
    }
  }

  lemma NewSubIsOk(glob: Glob, c: Conn, topics: seq<string>, scope: string, trace: seq<Event>, log: seq<Event>)
    ensures SubOk(glob, NewSub(c, topics, scope, trace), log)
  {
    assert trace[..0] == [];
  }

  lemma TakeOutKeepsInv(glob: Glob, st: State, c: Conn, why: Departure)
    requires Inv(glob, st)
    ensures Inv(glob, TakeOut(st, c, why))
    ensures c !in TakeOut(st, c, why).table
  {
    var t := TakeOut(st, c, why);
    forall i | 0 <= i < |t.subs|
      ensures SubOk(glob, t.subs[i], t.log)
      ensures t.subs[i].left.None? <==> InTable(t, i)
    {
      assert st.subs[i].left.None? <==> InTable(st, i);
      if c in st.table && st.table[c] == i {
        DepartKeepsSub(glob, st.subs[i], why, st.log);
      }
    }
  }

  lemma AddKeepsTable(st: State, s: Sub)
    requires TableOk(st) && Listed(st) && s.conn !in st.table && s.left.None?
    ensures var t := st.(subs := st.subs + [s], table := st.table[s.conn := |st.subs|]); TableOk(t) && Listed(t)
  {
    var t := st.(subs := st.subs + [s], table := st.table[s.conn := |st.subs|]);
    forall i | 0 <= i < |t.subs| ensures t.subs[i].left.None? <==> InTable(t, i) {
      if i < |st.subs| {
        assert st.subs[i].left.None? <==> InTable(st, i);
      }
    }
  }

  lemma AddKeepsInv(glob: Glob, st: State, s: Sub)
    requires Inv(glob, st) && SubOk(glob, s, st.log)
    requires s.conn !in st.table && s.left.None?
    ensures Inv(glob, st.(subs := st.subs + [s], table := st.table[s.conn := |st.subs|]))
  {
    AddKeepsTable(st, s);
    var subs := st.subs + [s];
    forall i | 0 <= i < |subs| ensures SubOk(glob, subs[i], st.log) {
      if i < |st.subs| {
        assert subs[i] == st.subs[i];
      } else {
        assert subs[i] == s;
      }
    }
  }

  lemma NextKeepsInv(glob: Glob, st: State, a: Action)
    requires Inv(glob, st) && Enabled(glob, st, a)
    ensures Inv(glob, Next(glob, st, a))
  {
    match a {
      case Register(c, topics, scope, trace) =>
        TakeOutKeepsInv(glob, st, c, Replaced);
        NewSubIsOk(glob, c, topics, scope, trace, st.log);
        AddKeepsInv(glob, TakeOut(st, c, Replaced), NewSub(c, topics, scope, trace));
      case Broadcast(e) => BroadcastKeepsInv(glob, st, e);
      case Remove(c) => TakeOutKeepsInv(glob, st, c, Removed);
      case ReplayNext(i) =>
        ReplayKeepsSub(glob, st.subs[i], st.log);
        UpdateKeepsInv(glob, st, i, Replay(glob, st.subs[i]));
      case Activate(i) =>
        GoLiveKeepsSub(glob, st.subs[i], st.log);
        UpdateKeepsInv(glob, st, i, GoLive(st.subs[i], |st.log|));
      case Dequeue(i) =>
        TakeKeepsSub(glob, st.subs[i], st.log);
        UpdateKeepsInv(glob, st, i, Take(st.subs[i]));
      case WriteOk(i) =>
        WriterKeepsSub(glob, st.subs[i], Wrote(st.subs[i]), st.log);
        UpdateKeepsInv(glob, st, i, Wrote(st.subs[i]));
      case WriteFail(i) =>
        WriterKeepsSub(glob, st.subs[i], Failed(st.subs[i]), st.log);
        UpdateKeepsInv(glob, st, i, Failed(st.subs[i]));
      case SeeClosed(i) =>
        WriterKeepsSub(glob, st.subs[i], Drained(st.subs[i]), st.log);
        UpdateKeepsInv(glob, st, i, Drained(st.subs[i]));
      case Exit(i) =>
        WriterKeepsSub(glob, st.subs[i], Finished(st.subs[i]), st.log);
        UpdateKeepsInv(glob, st, i, Finished(st.subs[i]));
    }
  }

  // ---- Runs -------------------------------------------------------------------------

  // st can be reached from the empty server by the actions as, in that order.
  ghost predicate Reaches(glob: Glob, acts: seq<Action>, st: State) {
    if acts == [] then st == INIT
    else
      var n := |acts| - 1;
      exists pre :: Reaches(glob, acts[..n], pre) && TableOk(pre) && Enabled(glob, pre, acts[n])
                    && st == Next(glob, pre, acts[n])
  }

  lemma {:induction false} ReachableIsInv(glob: Glob, acts: seq<Action>, st: State)
    requires Reaches(glob, acts, st)
    ensures Inv(glob, st)
  {
    if acts != [] {
      var n := |acts| - 1;
      var pre :| Reaches(glob, acts[..n], pre) && TableOk(pre) && Enabled(glob, pre, acts[n])
                 && st == Next(glob, pre, acts[n]);
      ReachableIsInv(glob, acts[..n], pre);
      NextKeepsInv(glob, pre, acts[n]);
    }
  }

  // The log is what was broadcast, in the order the lock was taken.
  function Broadcasts(acts: seq<Action>): seq<Event> {
    if acts == [] then []
    else
      var n := |acts| - 1;
      Broadcasts(acts[..n]) + (if acts[n].Broadcast? then [acts[n].event] else [])
  }

  lemma {:induction false} LogIsBroadcasts(glob: Glob, acts: seq<Action>, st: State)
    requires Reaches(glob, acts, st)
    ensures st.log == Broadcasts(acts)
  {
    if acts != [] {
      var n := |acts| - 1;
      var pre :| Reaches(glob, acts[..n], pre) && TableOk(pre) && Enabled(glob, pre, acts[n])
                 && st == Next(glob, pre, acts[n]);
      LogIsBroadcasts(glob, acts[..n], pre);
    }
  }

  // ---- What a run asked for and did, read off its actions ------------------------------

  // The registrations, in order: the i-th makes subscription i.
  function Registrations(acts: seq<Action>): (rs: seq<Action>)
    ensures forall a | a in rs :: a.Register?
  {
    if acts == [] then []
    else
      var n := |acts| - 1;
      Registrations(acts[..n]) + (if acts[n].Register? then [acts[n]] else [])
  }

  // The events broadcast after subscription i went live.
  function SinceActivation(acts: seq<Action>, i: nat): seq<Event> {
    if acts == [] then []
    else
      var n := |acts| - 1;
      SinceActivation(acts[..n], i) + (if acts[n].Broadcast? && Activate(i) in acts[..n] then [acts[n].event] else [])
  }

  function Times(acts: seq<Action>, a: Action): nat {
    multiset(acts)[a]
  }

  lemma TimesSnoc(acts: seq<Action>, b: Action, a: Action)
    ensures Times(acts + [b], a) == Times(acts, a) + (if a == b then 1 else 0)
    ensures a in acts <==> Times(acts, a) > 0
  {
    assert multiset(acts + [b]) == multiset(acts) + multiset([b]);
    assert multiset([b]) == multiset{b};
  }

  // A subscription is what its registration asked for.
  predicate AsAsked(s: Sub, a: Action)
    requires a.Register?
  {
    s.conn == a.conn && s.topics == a.topics && s.scope == a.scope && s.trace == a.trace
  }

  // ... and has come exactly as far as its own steps took it.
  predicate AsFarAs(acts: seq<Action>, s: Sub, i: nat) {
    && |s.dequeued| == Times(acts, Dequeue(i))
    && |s.written| == Times(acts, WriteOk(i))
    && s.cursor + (if s.broke then 1 else 0) == Times(acts, ReplayNext(i))
    && (s.writeFailed <==> WriteFail(i) in acts)
    && (s.writer.Exited? <==> Exit(i) in acts)
    && (s.writer.Stopping? || s.writer.Exited? <==> WriteFail(i) in acts || SeeClosed(i) in acts)
    && (s.active <==> Activate(i) in acts)
  }

  lemma StepKeepsAsked(glob: Glob, st: State, a: Action, i: nat)
    requires TableOk(st) && Enabled(glob, st, a) && i < |st.subs|
    ensures i < |Next(glob, st, a).subs|
    ensures var s, t := st.subs[i], Next(glob, st, a).subs[i];
      t.conn == s.conn && t.topics == s.topics && t.scope == s.scope && t.trace == s.trace
  {
  }

  lemma RegisterAsAsked(glob: Glob, st: State, a: Action)
    requires TableOk(st) && a.Register?
    ensures |Next(glob, st, a).subs| == |st.subs| + 1 && AsAsked(Next(glob, st, a).subs[|st.subs|], a)
  {
  }

  lemma OthersMakeNone(glob: Glob, st: State, a: Action)
    requires TableOk(st) && Enabled(glob, st, a) && !a.Register?
    ensures |Next(glob, st, a).subs| == |st.subs|
  {
  }

  // Subscription i is the one the i-th registration asked for, for good.
  lemma {:induction false} SubsAreAsAsked(glob: Glob, acts: seq<Action>, st: State)
    requires Reaches(glob, acts, st)
    ensures |st.subs| == |Registrations(acts)|
    ensures forall i | 0 <= i < |st.subs| :: AsAsked(st.subs[i], Registrations(acts)[i])
  {
    if acts != [] {
      var n := |acts| - 1;
      var pre :| Reaches(glob, acts[..n], pre) && TableOk(pre) && Enabled(glob, pre, acts[n])
                 && st == Next(glob, pre, acts[n]);
      SubsAreAsAsked(glob, acts[..n], pre);
      forall i | 0 <= i < |pre.subs| ensures AsAsked(st.subs[i], Registrations(acts)[i]) {
        StepKeepsAsked(glob, pre, acts[n], i);
      }
      if acts[n].Register? {
        RegisterAsAsked(glob, pre, acts[n]);
      } else {
        OthersMakeNone(glob, pre, acts[n]);
      }
    }
  }

  lemma CountsSnoc(acts: seq<Action>, a: Action, i: nat)
    ensures forall x | x in [Dequeue(i), WriteOk(i), ReplayNext(i), WriteFail(i), SeeClosed(i), Exit(i), Activate(i)] ::
      Times(acts + [a], x) == Times(acts, x) + (if x == a then 1 else 0) && (x in acts <==> Times(acts, x) > 0)
      && (x in acts + [a] <==> x in acts || x == a)
  {
    forall x ensures Times(acts + [a], x) == Times(acts, x) + (if x == a then 1 else 0) && (x in acts <==> Times(acts, x) > 0) {
      TimesSnoc(acts, a, x);
    }
  }

  // What one step adds to a subscription's progress.
  lemma StepMoves(glob: Glob, st: State, a: Action, i: nat)
    requires TableOk(st) && Enabled(glob, st, a) && i < |st.subs|
    ensures i < |Next(glob, st, a).subs|
    ensures var s, t := st.subs[i], Next(glob, st, a).subs[i];
      && |t.dequeued| == |s.dequeued| + (if a == Dequeue(i) then 1 else 0)
      && |t.written| == |s.written| + (if a == WriteOk(i) then 1 else 0)
      && t.cursor + (if t.broke then 1 else 0) == s.cursor + (if s.broke then 1 else 0) + (if a == ReplayNext(i) then 1 else 0)
  {
  }

  lemma StepMarksWriter(glob: Glob, st: State, a: Action, i: nat)
    requires TableOk(st) && Enabled(glob, st, a) && i < |st.subs| && i < |Next(glob, st, a).subs|
    ensures var s, t := st.subs[i], Next(glob, st, a).subs[i];
      && (t.writeFailed <==> s.writeFailed || a == WriteFail(i))
      && (t.writer.Exited? <==> s.writer.Exited? || a == Exit(i))
      && (t.writer.Stopping? || t.writer.Exited?
          <==> s.writer.Stopping? || s.writer.Exited? || a == WriteFail(i) || a == SeeClosed(i))
  {
    if a.Dequeue? || a.WriteOk? || a.WriteFail? || a.SeeClosed? || a.Exit? {
      assert a.i != i ==> Next(glob, st, a).subs[i] == st.subs[i];
    } else {
      assert Next(glob, st, a).subs[i].writer == st.subs[i].writer;
    }
  }

  lemma StepMarksActive(glob: Glob, st: State, a: Action, i: nat)
    requires TableOk(st) && Enabled(glob, st, a) && i < |st.subs| && i < |Next(glob, st, a).subs|
    ensures Next(glob, st, a).subs[i].active <==> st.subs[i].active || a == Activate(i)
  {
    if a.Register? || a.Remove? {
      assert Next(glob, st, a).subs[i].active == st.subs[i].active;
    } else if a.Broadcast? {
      assert Next(glob, st, a).subs[i] == Receive(glob, st.subs[i], InTable(st, i), a.event, |st.log|);
    } else {
      assert a.i != i ==> Next(glob, st, a).subs[i] == st.subs[i];
    }
  }

  lemma StepKeepsAsFarAs(glob: Glob, acts: seq<Action>, st: State, a: Action, i: nat)
    requires TableOk(st) && Enabled(glob, st, a) && i < |st.subs| && AsFarAs(acts, st.subs[i], i)
    ensures i < |Next(glob, st, a).subs| && AsFarAs(acts + [a], Next(glob, st, a).subs[i], i)
  {
    StepMoves(glob, st, a, i);
    StepMarksWriter(glob, st, a, i);
    StepMarksActive(glob, st, a, i);
    AddCounts(acts, a, st.subs[i], Next(glob, st, a).subs[i], i);
  }

  lemma AddCounts(acts: seq<Action>, a: Action, s: Sub, t: Sub, i: nat)
    requires AsFarAs(acts, s, i)
    requires |t.dequeued| == |s.dequeued| + (if a == Dequeue(i) then 1 else 0)
    requires |t.written| == |s.written| + (if a == WriteOk(i) then 1 else 0)
    requires t.cursor + (if t.broke then 1 else 0) == s.cursor + (if s.broke then 1 else 0) + (if a == ReplayNext(i) then 1 else 0)
    requires t.writeFailed <==> s.writeFailed || a == WriteFail(i)
    requires t.writer.Exited? <==> s.writer.Exited? || a == Exit(i)
    requires t.writer.Stopping? || t.writer.Exited?
        <==> s.writer.Stopping? || s.writer.Exited? || a == WriteFail(i) || a == SeeClosed(i)
    requires t.active <==> s.active || a == Activate(i)
    ensures AsFarAs(acts + [a], t, i)
  {
    CountsSnoc(acts, a, i);
  }

  predicate ActsOn(a: Action, i: nat) {
    a in [ReplayNext(i), Activate(i), Dequeue(i), WriteOk(i), WriteFail(i), SeeClosed(i), Exit(i)]
  }

  lemma ActIsInRange(glob: Glob, st: State, a: Action, i: nat)
    requires TableOk(st) && Enabled(glob, st, a) && |Next(glob, st, a).subs| <= i
    ensures |st.subs| <= i && !ActsOn(a, i)
  {
    SubsOnlyGrow(glob, st, a);
  }

  predicate NoneActsOn(acts: seq<Action>, i: nat) {
    forall k | 0 <= k < |acts| :: !ActsOn(acts[k], i)
  }

  lemma NoneActsOnSnoc(acts: seq<Action>, n: nat, i: nat)
    requires |acts| == n + 1 && NoneActsOn(acts[..n], i) && !ActsOn(acts[n], i)
    ensures NoneActsOn(acts, i)
  {
    forall k | 0 <= k < |acts| ensures !ActsOn(acts[k], i) {
      assert k < n ==> acts[..n][k] == acts[k];
    }
  }

  lemma {:induction false} ActsInRange(glob: Glob, acts: seq<Action>, st: State, i: nat)
    requires Reaches(glob, acts, st) && |st.subs| <= i
    ensures NoneActsOn(acts, i)
  {
    if acts != [] {
      var n := |acts| - 1;
      var pre :| Reaches(glob, acts[..n], pre) && TableOk(pre) && Enabled(glob, pre, acts[n])
                 && st == Next(glob, pre, acts[n]);
      ActIsInRange(glob, pre, acts[n], i);
      ActsInRange(glob, acts[..n], pre, i);
      NoneActsOnSnoc(acts, n, i);
    }
  }

  lemma SubsOnlyGrow(glob: Glob, st: State, a: Action)
    requires TableOk(st) && Enabled(glob, st, a)
    ensures |st.subs| <= |Next(glob, st, a).subs|
  {
  }

  lemma NewIsAsFarAs(acts: seq<Action>, a: Action, s: Sub, i: nat)
    requires a.Register? && s == NewSub(a.conn, a.topics, a.scope, a.trace)
    requires NoneActsOn(acts, i)
    ensures AsFarAs(acts + [a], s, i)
  {
    CountsSnoc(acts, a, i);
  }

  lemma {:induction false} SubsAreAsFarAs(glob: Glob, acts: seq<Action>, st: State, i: nat)
    requires Reaches(glob, acts, st) && i < |st.subs|
    ensures AsFarAs(acts, st.subs[i], i)
  {
    var n := |acts| - 1;
    var pre :| Reaches(glob, acts[..n], pre) && TableOk(pre) && Enabled(glob, pre, acts[n])
               && st == Next(glob, pre, acts[n]);
    assert acts == acts[..n] + [acts[n]];
    if i < |pre.subs| {
      SubsAreAsFarAs(glob, acts[..n], pre, i);
      StepKeepsAsFarAs(glob, acts[..n], pre, acts[n], i);
    } else {
      ActsInRange(glob, acts[..n], pre, i);
      if !acts[n].Register? {
        OthersMakeNone(glob, pre, acts[n]);
      }
      NewIsAsFarAs(acts[..n], acts[n], st.subs[i], i);
    }
  }

  // What ends a subscription of that connection.
  predicate Ends(a: Action, c: Conn) {
    (a.Register? && a.conn == c) || a == Remove(c)
  }

  // Subscription i was taken out of the table by step b: its connection
  // registered again or was removed, or it was offered one matching event more
  // than its buffer holds.
  ghost predicate LeftAt(glob: Glob, acts: seq<Action>, b: nat, s: Sub, i: nat)
    requires b < |acts| && s.left.Some?
  {
    match s.left.value.0
    case Replaced => acts[b].Register? && acts[b].conn == s.conn
    case Removed => acts[b] == Remove(s.conn)
    case Evicted =>
      acts[b].Broadcast? && Matches(glob, acts[b].event, s.topics, s.scope) && Activate(i) in acts[..b]
      && exists pre :: Reaches(glob, acts[..b], pre) && i < |pre.subs| && |pre.subs[i].buf| == 256
  }

  // It was served during the first b steps: up to the one that took it out, or
  // all of them. No earlier step after its registration ended it.
  ghost predicate ServedUntil(glob: Glob, acts: seq<Action>, b: nat, s: Sub, i: nat) {
    && b <= |acts|
    && (s.left.None? <==> b == |acts|)
    && (b < |acts| ==> LeftAt(glob, acts, b, s, i))
    && forall k | 0 <= k < b && i < |Registrations(acts[..k])| :: !Ends(acts[k], s.conn)
  }

  lemma Prefixes(acts: seq<Action>, a: Action)
    ensures forall k | 0 <= k <= |acts| :: (acts + [a])[..k] == acts[..k]
    ensures forall k | 0 <= k < |acts| :: (acts + [a])[k] == acts[k]
    ensures (acts + [a])[|acts|] == a && acts[..|acts|] == acts && (acts + [a])[..|acts| + 1] == acts + [a]
  {
  }

  lemma SinceSnoc(acts: seq<Action>, a: Action, i: nat)
    ensures SinceActivation(acts + [a], i)
         == SinceActivation(acts, i) + (if a.Broadcast? && Activate(i) in acts then [a.event] else [])
    ensures Broadcasts(acts + [a]) == Broadcasts(acts) + (if a.Broadcast? then [a.event] else [])
  {
    assert (acts + [a])[..|acts|] == acts;
  }

  lemma {:induction false} NothingSince(acts: seq<Action>, i: nat)
    requires Activate(i) !in acts
    ensures SinceActivation(acts, i) == []
  {
    if acts != [] {
      NothingSince(acts[..|acts| - 1], i);
    }
  }

  // Exactly the ending steps and the one matching event too many take a
  // subscription out, and what has left stays out.
  lemma StepLeaves(glob: Glob, st: State, a: Action, i: nat)
    requires Inv(glob, st) && Enabled(glob, st, a) && i < |st.subs|
    ensures Leaves(glob, st, a, i, st.subs[i], Next(glob, st, a).subs[i])
  {
    var s, t := st.subs[i], Next(glob, st, a).subs[i];
    assert InTable(st, i) <==> s.left.None?;
    assert HistoryOk(s, |st.log|) by { assert SubOk(glob, s, st.log); }
    if a.Broadcast? {
      assert t == Receive(glob, s, InTable(st, i), a.event, |st.log|);
    } else if a.Register? || a.Remove? {
      TakeOutLeaves(st, a.conn, if a.Register? then Replaced else Removed, i);
    } else {
      assert t.left == s.left;
    }
  }

  ghost predicate Leaves(glob: Glob, st: State, a: Action, i: nat, s: Sub, t: Sub) {
    && (s.left.Some? ==> t.left == s.left)
    && (s.left.None? && Ends(a, s.conn) ==> t.left.Some?)
    && (s.left.None? && t.left.Some? ==>
          t.left.value.1 == |st.log|
          && match t.left.value.0
             case Replaced => a.Register? && a.conn == s.conn
             case Removed => a == Remove(s.conn)
             case Evicted => a.Broadcast? && Matches(glob, a.event, s.topics, s.scope) && s.active && |s.buf| == 256)
  }

  lemma TakeOutLeaves(st: State, c: Conn, why: Departure, i: nat)
    requires TableOk(st) && i < |st.subs|
    ensures var s, t := st.subs[i], TakeOut(st, c, why).subs[i];
      t == if InTable(st, i) && s.conn == c then Depart(s, why, |st.log|) else s
  {
  }

  lemma ActivationStep(glob: Glob, st: State, a: Action, i: nat)
    requires TableOk(st) && Enabled(glob, st, a) && i < |st.subs|
    ensures var s, t := st.subs[i], Next(glob, st, a).subs[i];
      t.activatedAt == if a == Activate(i) then Some(|st.log|) else s.activatedAt
  {
  }

  // What one step does to a live window.
  lemma WindowOfStep(glob: Glob, s: Sub, t: Sub, log: seq<Event>, a: Action, i: nat)
    requires HistoryOk(s, |log|)
    requires s.left.Some? ==> t.left == s.left
    requires s.left.None? && t.left.Some? ==> t.left.value.1 == |log|
    requires t.activatedAt == if a == Activate(i) then Some(|log|) else s.activatedAt
    requires a == Activate(i) ==> !s.active
    ensures var after := log + (if a.Broadcast? then [a.event] else []);
      LiveWindow(t, after)
      == LiveWindow(s, log) + (if a.Broadcast? && s.active && s.left.None? && t.left.None? then [a.event] else [])
  {
    var after := log + (if a.Broadcast? then [a.event] else []);
    if a.Broadcast? && s.activatedAt.Some? {
      LiveWindowSnoc((_, _) => true, s, log, a.event);
      WindowSnoc(log, a.event, s.activatedAt.value);
    } else {
      assert after == log || s.activatedAt.None?;
    }
  }

  // It goes on being served unless this step takes it out.
  lemma {:induction false} ServedStep(glob: Glob, acts: seq<Action>, pre: State, a: Action, i: nat, b: nat, s: Sub, t: Sub)
    requires Reaches(glob, acts, pre) && i < |pre.subs| && s == pre.subs[i] && t.conn == s.conn
    requires t.topics == s.topics && t.scope == s.scope && (s.active <==> Activate(i) in acts)
    requires ServedUntil(glob, acts, b, s, i)
    requires s.left.Some? ==> t.left == s.left
    requires s.left.None? && Ends(a, s.conn) ==> t.left.Some?
    requires s.left.None? && t.left.Some? ==>
      match t.left.value.0
      case Replaced => a.Register? && a.conn == s.conn
      case Removed => a == Remove(s.conn)
      case Evicted => a.Broadcast? && Matches(glob, a.event, s.topics, s.scope) && s.active && |s.buf| == BUFFER
    ensures ServedUntil(glob, acts + [a], if s.left.Some? then b else if t.left.Some? then |acts| else |acts| + 1, t, i)
  {
    Prefixes(acts, a);
    var all := acts + [a];
    if s.left.Some? {
      assert LeftAt(glob, all, b, t, i);
    } else if t.left.Some? {
      assert LeftAt(glob, all, |acts|, t, i);
    }
  }

  lemma {:induction false} WindowStep(glob: Glob, acts: seq<Action>, pre: State, a: Action, i: nat, b: nat)
    requires Reaches(glob, acts, pre) && TableOk(pre) && Enabled(glob, pre, a) && i < |pre.subs|
    requires ServedUntil(glob, acts, b, pre.subs[i], i)
    requires LiveWindow(pre.subs[i], pre.log) == SinceActivation(acts[..b], i)
    ensures i < |Next(glob, pre, a).subs|
    ensures var s, t, all := pre.subs[i], Next(glob, pre, a).subs[i], acts + [a];
      var c := if s.left.Some? then b else if t.left.Some? then |acts| else |acts| + 1;
      ServedUntil(glob, all, c, t, i) && LiveWindow(t, Broadcasts(all)) == SinceActivation(all[..c], i)
  {
    ReachableIsInv(glob, acts, pre);
    LogIsBroadcasts(glob, acts, pre);
    SubsAreAsFarAs(glob, acts, pre, i);
    StepKeepsAsked(glob, pre, a, i);
    StepLeaves(glob, pre, a, i);
    ActivationStep(glob, pre, a, i);
    var s, t := pre.subs[i], Next(glob, pre, a).subs[i];
    assert SubOk(glob, s, pre.log);
    WindowOfStep(glob, s, t, pre.log, a, i);
    ServedStep(glob, acts, pre, a, i, b, s, t);
    SinceStep(acts, a, i, b, s, t);
  }

  lemma SinceStep(acts: seq<Action>, a: Action, i: nat, b: nat, s: Sub, t: Sub)
    requires b <= |acts| && (s.left.None? ==> b == |acts|) && (s.active <==> Activate(i) in acts)
    requires s.left.Some? ==> t.left == s.left
    ensures var c := if s.left.Some? then b else if t.left.Some? then |acts| else |acts| + 1;
      SinceActivation((acts + [a])[..c], i)
      == SinceActivation(acts[..b], i) + (if a.Broadcast? && s.active && s.left.None? && t.left.None? then [a.event] else [])
    ensures Broadcasts(acts + [a]) == Broadcasts(acts) + (if a.Broadcast? then [a.event] else [])
  {
    Prefixes(acts, a);
    SinceSnoc(acts, a, i);
  }

  // The live window, as a stretch of the run.
  lemma {:induction false} WindowIsSince(glob: Glob, acts: seq<Action>, st: State, i: nat)
    requires Reaches(glob, acts, st) && i < |st.subs|
    ensures exists b: nat :: ServedUntil(glob, acts, b, st.subs[i], i) && LiveWindow(st.subs[i], st.log) == SinceActivation(acts[..b], i)
  {
    var n := |acts| - 1;
    var a := acts[n];
    var pre :| Reaches(glob, acts[..n], pre) && TableOk(pre) && Enabled(glob, pre, a) && st == Next(glob, pre, a);
    assert acts == acts[..n] + [a] && acts[..|acts|] == acts;
    LogIsBroadcasts(glob, acts[..n], pre);
    LogIsBroadcasts(glob, acts, st);
    if i < |pre.subs| {
      WindowIsSince(glob, acts[..n], pre, i);
      var b: nat :| ServedUntil(glob, acts[..n], b, pre.subs[i], i)
               && LiveWindow(pre.subs[i], pre.log) == SinceActivation(acts[..n][..b], i);
      WindowStep(glob, acts[..n], pre, a, i, b);
    } else {
      NewWindow(glob, acts[..n], pre, a, st.subs[i], i);
    }
  }

  lemma {:induction false} NewWindow(glob: Glob, acts: seq<Action>, pre: State, a: Action, s: Sub, i: nat)
    requires Reaches(glob, acts, pre) && TableOk(pre) && Enabled(glob, pre, a)
    requires |pre.subs| <= i < |Next(glob, pre, a).subs| && s == Next(glob, pre, a).subs[i]
    ensures ServedUntil(glob, acts + [a], |acts| + 1, s, i)
    ensures LiveWindow(s, Next(glob, pre, a).log) == SinceActivation((acts + [a])[..|acts| + 1], i)
  {
    if !a.Register? {
      OthersMakeNone(glob, pre, a);
    }
    assert s == NewSub(a.conn, a.topics, a.scope, a.trace);
    SubsAreAsAsked(glob, acts, pre);
    Prefixes(acts, a);
    ActsInRange(glob, acts, pre, i);
    assert Activate(i) !in acts + [a];
    NothingSince(acts + [a], i);
    forall k | 0 <= k <= |acts| ensures |Registrations((acts + [a])[..k])| <= i {
      RegistrationsGrow(acts, k);
    }
  }

  lemma {:induction false} RegistrationsGrow(acts: seq<Action>, k: nat)
    requires k <= |acts|
    ensures |Registrations(acts[..k])| <= |Registrations(acts)|
  {
    if k == |acts| {
      assert acts[..k] == acts;
    } else {
      var n := |acts| - 1;
      assert acts[..n][..k] == acts[..k];
      RegistrationsGrow(acts[..n], k);
    }
  }

  // Main result, read off what was asked and done. Subscription i is the one the
  // i-th registration asked for. What was taken from its channel followed by
  // what is still in it is exactly the records its replay has handled that match
  // the topics asked for, then the events broadcast after its activation and
  // while it was served that match the topics and the scope asked for. As many
  // were taken, and written, as it took such steps, the written ones first; the
  // buffer is bounded; the replay is complete before it goes live, unless the
  // subscription had ended.
  lemma {:induction false} DeliveryIsGapFree(glob: Glob, acts: seq<Action>, st: State, i: nat)
    requires Reaches(glob, acts, st) && i < |st.subs|
    ensures i < |Registrations(acts)|
    ensures var s, asked := st.subs[i], Registrations(acts)[i];
      && AsAsked(s, asked)
      && AsFarAs(acts, s, i)
      && s.cursor <= |asked.trace|
      && (exists b: nat :: ServedUntil(glob, acts, b, s, i)
            && s.dequeued + s.buf
               == ReplayFilter(glob, asked.trace[..s.cursor], asked.topics)
                  + LiveFilter(glob, SinceActivation(acts[..b], i), asked.topics, asked.scope))
      && s.written <= s.dequeued
      && |s.buf| <= 256
      && (s.broke ==> s.left.Some?)
      && (s.active && !s.broke ==> asked.trace[..s.cursor] == asked.trace)
  {
    ReachableIsInv(glob, acts, st);
    SubsAreAsAsked(glob, acts, st);
    SubsAreAsFarAs(glob, acts, st, i);
    WindowIsSince(glob, acts, st, i);
    assert SubOk(glob, st.subs[i], st.log);
  }

  // No channel is closed twice; what the table lists is open, so a broadcast
  // never sends on, and nobody ever closes, a closed channel.
  lemma {:induction false} ChannelsAreSafe(glob: Glob, acts: seq<Action>, st: State)
    requires Reaches(glob, acts, st)
    ensures forall i | 0 <= i < |st.subs| :: st.subs[i].closes <= 1
    ensures forall c | c in st.table :: st.table[c] < |st.subs| && Open(st.subs[st.table[c]])
    ensures forall i | 0 <= i < |st.subs| :: Open(st.subs[i]) <==> InTable(st, i)
  {
    ReachableIsInv(glob, acts, st);
    forall i | 0 <= i < |st.subs|
      ensures st.subs[i].closes <= 1 && (Open(st.subs[i]) <==> InTable(st, i))
    {
      assert SubOk(glob, st.subs[i], st.log);
    }
    forall c | c in st.table ensures Open(st.subs[st.table[c]]) {
      assert InTable(st, st.table[c]);
    }
  }

  // A writer that has exited has closed its connection unless its subscription
  // was replaced; it never closes for a replaced one unless its own write failed.
  lemma WhoClosesConnections(glob: Glob, acts: seq<Action>, st: State, i: nat)
    requires Reaches(glob, acts, st) && i < |st.subs|
    ensures var s := st.subs[i];
      && (s.closedConn ==> s.writer.Exited?)
      && (s.closedConn ==> s.writeFailed || (s.left.Some? && s.left.value.0 != Replaced))
      && (s.writer.Exited? && (s.left.None? || s.left.value.0 != Replaced) ==> s.closedConn)
      && (s.detached <==> s.left.Some? && s.left.value.0 == Replaced)
    ensures Enabled(glob, st, Exit(i)) && TableOk(st) ==>
      var s, t := st.subs[i], Next(glob, st, Exit(i)).subs[i];
      t.closedConn <==> !(s.left.Some? && s.left.value.0 == Replaced)
  {
    SubsAreInOrder(glob, acts, st, i);
  }

  // Where a writer is, read off what it has done.
  lemma WriterIsWhere(acts: seq<Action>, s: Sub, now: nat, i: nat)
    requires HistoryOk(s, now) && WriterOk(s) && AsFarAs(acts, s, i)
    ensures s.writer.Writing? <==> |s.dequeued| == |s.written| + 1 && !s.writeFailed
    ensures s.writer == Stopping <==> (WriteFail(i) in acts || SeeClosed(i) in acts) && Exit(i) !in acts
    ensures Open(s) <==> s.left.None?
  {
  }

  lemma WriterSteps(glob: Glob, st: State, i: nat)
    requires i < |st.subs|
    ensures Enabled(glob, st, Dequeue(i)) <==> st.subs[i].writer == Waiting && |st.subs[i].buf| > 0
    ensures Enabled(glob, st, SeeClosed(i)) <==> st.subs[i].writer == Waiting && |st.subs[i].buf| == 0 && !Open(st.subs[i])
    ensures Enabled(glob, st, WriteOk(i)) <==> st.subs[i].writer.Writing?
    ensures Enabled(glob, st, WriteFail(i)) <==> st.subs[i].writer.Writing?
    ensures Enabled(glob, st, Exit(i)) <==> st.subs[i].writer == Stopping
  {
  }

  // When the writer of a subscription can take its next step: it waits only for
  // an empty channel that is still in use.
  lemma WriterMoves(glob: Glob, acts: seq<Action>, st: State, i: nat)
    requires Reaches(glob, acts, st) && i < |st.subs|
    ensures var s := st.subs[i];
      && (s.writer.Waiting? ==> (Enabled(glob, st, Dequeue(i)) <==> |s.buf| > 0))
      && (s.writer.Waiting? ==> (Enabled(glob, st, SeeClosed(i)) <==> |s.buf| == 0 && s.left.Some?))
      && (Enabled(glob, st, WriteOk(i)) <==> |s.dequeued| == |s.written| + 1 && !s.writeFailed)
      && (Enabled(glob, st, WriteFail(i)) <==> |s.dequeued| == |s.written| + 1 && !s.writeFailed)
      && (Enabled(glob, st, Exit(i)) <==> (WriteFail(i) in acts || SeeClosed(i) in acts) && Exit(i) !in acts)
  {
    SubsAreAsFarAs(glob, acts, st, i);
    SubsAreInOrder(glob, acts, st, i);
    WriterIsWhere(acts, st.subs[i], |st.log|, i);
    WriterSteps(glob, st, i);
  }

  lemma SubsAreInOrder(glob: Glob, acts: seq<Action>, st: State, i: nat)
    requires Reaches(glob, acts, st) && i < |st.subs|
    ensures HistoryOk(st.subs[i], |st.log|) && WriterOk(st.subs[i])
  {
    ReachableIsInv(glob, acts, st);
    assert SubOk(glob, st.subs[i], st.log);
  }

  // A replay waits only for a full channel that is still in use; the live stream
  // starts once it has seen everything or its subscription has ended. The
  // server's own steps are never held up.
  lemma ReplayMoves(glob: Glob, acts: seq<Action>, st: State, i: nat, a: Action)
    requires Reaches(glob, acts, st) && i < |st.subs|
    ensures var s := st.subs[i];
      && (Enabled(glob, st, Activate(i)) <==> !s.active && (s.broke || s.cursor == |s.trace|))
      && (s.active || Enabled(glob, st, Activate(i)) || Enabled(glob, st, ReplayNext(i)) || (|s.buf| == 256 && s.left.None?))
    ensures a.Register? || a.Broadcast? || a.Remove? ==> Enabled(glob, st, a)
  {
    SubsAreInOrder(glob, acts, st, i);
  }

  // ---- Refinement of the simple specification -----------------------------------------

  // What an action adds to the stream of subscription i.
  function Appended(glob: Glob, st: State, a: Action, i: nat): seq<Event>
    requires i < |st.subs| && Enabled(glob, st, a)
  {
    var s := st.subs[i];
    match a
    case ReplayNext(j) =>
      if j == i && Open(s) && TopicMatches(glob, s.trace[s.cursor].topic, s.topics) then [s.trace[s.cursor]] else []
    case Broadcast(e) =>
      if Open(s) && s.active && Matches(glob, e, s.topics, s.scope) && |s.buf| < BUFFER then [e] else []
    case _ => []
  }

  lemma ReceiveExtendsBuffer(glob: Glob, s: Sub, inTable: bool, e: Event, at: nat)
    requires Open(s) <==> inTable
    ensures var t := Receive(glob, s, inTable, e, at);
      t.dequeued + t.buf == s.dequeued + s.buf
        + (if Open(s) && s.active && Matches(glob, e, s.topics, s.scope) && |s.buf| < BUFFER then [e] else [])
  {
  }

  lemma ListedIsOpen(glob: Glob, st: State, i: nat)
    requires Inv(glob, st) && i < |st.subs|
    ensures Open(st.subs[i]) <==> InTable(st, i)
  {
    assert SubOk(glob, st.subs[i], st.log);
    assert st.subs[i].left.None? <==> InTable(st, i);
  }

  // Apart from a broadcast, only the subscription's own steps touch its channel.
  lemma OwnStepExtendsBuffer(glob: Glob, st: State, a: Action, i: nat)
    requires TableOk(st) && Enabled(glob, st, a) && i < |st.subs| && !a.Broadcast?
    ensures var s, t := st.subs[i], Next(glob, st, a).subs[i];
      t.dequeued + t.buf == s.dequeued + s.buf + Appended(glob, st, a, i)
  {
    var s, t := st.subs[i], Next(glob, st, a).subs[i];
    if a == Dequeue(i) {
      assert s.dequeued + [s.buf[0]] + s.buf[1..] == s.dequeued + s.buf;
    } else if a == ReplayNext(i) {
      assert t == Replay(glob, s);
    } else {
      assert t.dequeued == s.dequeued && t.buf == s.buf;
    }
  }

  lemma StepExtendsBuffer(glob: Glob, st: State, a: Action, i: nat)
    requires Inv(glob, st) && Enabled(glob, st, a) && i < |st.subs|
    ensures var s, t := st.subs[i], Next(glob, st, a).subs[i];
      t.dequeued + t.buf == s.dequeued + s.buf + Appended(glob, st, a, i)
  {
    if a.Broadcast? {
      ListedIsOpen(glob, st, i);
      ReceiveExtendsBuffer(glob, st.subs[i], InTable(st, i), a.event, |st.log|);
    } else {
      OwnStepExtendsBuffer(glob, st, a, i);
    }
  }

  lemma StepExtendsWritten(glob: Glob, st: State, a: Action, i: nat)
    requires Inv(glob, st) && Enabled(glob, st, a) && i < |st.subs|
    ensures var s, t := st.subs[i], Next(glob, st, a).subs[i];
      t.written == s.written || (a == WriteOk(i) && t.written == s.dequeued && |s.dequeued| == |s.written| + 1)
  {
    assert WriterOk(st.subs[i]) by { assert SubOk(glob, st.subs[i], st.log); }
    if a.WriteOk? {
    } else {
      NeverWrites(glob, st, a, i);
    }
  }

  lemma NeverWrites(glob: Glob, st: State, a: Action, i: nat)
    requires TableOk(st) && Enabled(glob, st, a) && i < |st.subs| && !a.WriteOk?
    ensures Next(glob, st, a).subs[i].written == st.subs[i].written
  {
  }

  // Every action is a step of the simple specification, for every subscription:
  // its stream only ever grows at the end, and its delivered prefix only by the
  // next element of the stream.
  lemma {:induction false} RefinesStream(glob: Glob, st: State, a: Action, i: nat)
    requires Inv(glob, st) && Enabled(glob, st, a) && i < |st.subs|
    ensures i < |Next(glob, st, a).subs|
    ensures var s, t := st.subs[i], Next(glob, st, a).subs[i];
      && s.cursor <= |s.trace| && t.cursor <= |t.trace|
      && Stream(glob, t, Next(glob, st, a).log) == Stream(glob, s, st.log) + Appended(glob, st, a, i)
      && (t.written == s.written
          || (a == WriteOk(i) && |s.written| < |Stream(glob, s, st.log)|
              && t.written == Stream(glob, s, st.log)[..|s.written| + 1]))
  {
    var s, t := st.subs[i], Next(glob, st, a).subs[i];
    NextKeepsInv(glob, st, a);
    assert SubOk(glob, s, st.log) && SubOk(glob, t, Next(glob, st, a).log);
    StepExtendsBuffer(glob, st, a, i);
    StepExtendsWritten(glob, st, a, i);
    assert (s.dequeued + s.buf)[..|s.dequeued|] == s.dequeued;
  }

  // A matching event is lost only together with the subscription: either it
  // joins the stream or the subscription leaves the table, closed.
  lemma NoSilentLoss(glob: Glob, st: State, e: Event, i: nat)
    requires Inv(glob, st) && i < |st.subs|
    requires InTable(st, i) && st.subs[i].active && Matches(glob, e, st.subs[i].topics, st.subs[i].scope)
    ensures var t := Next(glob, st, Broadcast(e));
      if |st.subs[i].buf| < BUFFER then Appended(glob, st, Broadcast(e), i) == [e] && InTable(t, i)
      else Appended(glob, st, Broadcast(e), i) == [] && !InTable(t, i) && !Open(t.subs[i])
  {
    ListedIsOpen(glob, st, i);
    var t := Next(glob, st, Broadcast(e));
    assert t.subs[i] == Receive(glob, st.subs[i], true, e, |st.log|);
    assert st.subs[i].conn in t.table <==> !Evicts(glob, st, st.subs[i].conn, e);
  }
}
