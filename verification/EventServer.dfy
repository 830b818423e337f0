// The event server's objects (internal/transport/server.go). Every method is one
// atomic step of one goroutine and is proved to be the corresponding action of
// EventStream. Sending on or closing a closed channel panics in the original;
// here both demand an open channel, so the proofs also show no such panic.
module EventServer {
  import opened Basics
  import opened EventStream

  class Subscriber {
    const conn: Conn
    const topics: seq<string>
    const scope: string
    const trace: seq<Event>       // what the replay scan will return
    ghost const id: nat           // position among all subscriptions ever made
    var buf: seq<Event>           // the buffered channel
    var closed: bool
    var active: bool
    var detached: bool
    var cursor: nat               // replay progress
    var broke: bool
    var writer: Writer            // where the writer goroutine is
    var writeFailed: bool
    var closedConn: bool
    ghost var dequeued: seq<Event>
    ghost var written: seq<Event>
    ghost var activatedAt: Option<nat>
    ghost var left: Option<(Departure, nat)>

    constructor (conn: Conn, topics: seq<string>, scope: string, trace: seq<Event>, ghost id: nat)
      ensures View() == NewSub(conn, topics, scope, trace) && this.id == id && this.conn == conn
    {
      this.conn, this.topics, this.scope, this.trace, this.id := conn, topics, scope, trace, id;
      buf, closed, active, detached, cursor, broke := [], false, false, false, 0, false;
      writer, writeFailed, closedConn := Waiting, false, false;
      dequeued, written, activatedAt, left := [], [], None, None;
    }

    ghost function View(): Sub
      reads this
    {
      Sub(conn, topics, scope, buf, if closed then 1 else 0, active, detached, trace, cursor, broke,
          writer, writeFailed, closedConn, dequeued, written, activatedAt, left)
    }

    method CloseChannel(ghost why: Departure, ghost at: nat)
      requires !closed
      modifies this
      ensures View() == old(View()).(closes := 1, left := Some((why, at)))
    {
      closed := true;
      left := Some((why, at));
    }

    // A non-blocking send; false when the buffer is full.
    method TrySend(e: Event) returns (ok: bool)
      requires !closed
      modifies this
      ensures ok == (|old(buf)| < BUFFER)
      ensures View() == if ok then old(View()).(buf := old(buf) + [e]) else old(View())
    {
      ok := |buf| < BUFFER;
      if ok {
        buf := buf + [e];
      }
    }
  }

  class Server {
    const glob: Glob
    var subscribers: map<Conn, Subscriber>
    ghost var all: seq<Subscriber>
    ghost var log: seq<Event>

    constructor (glob: Glob)
      ensures Valid() && View() == INIT && this.glob == glob
    {
      this.glob := glob;
      subscribers, all, log := map[], [], [];
    }

    ghost predicate Linked()
      reads this, all
    {
      && (forall i | 0 <= i < |all| :: all[i].id == i)
      && (forall c | c in subscribers :: subscribers[c] in all && subscribers[c].conn == c)
    }

    ghost function View(): State
      reads this, all
    {
      State(seq(|all|, i requires 0 <= i < |all| reads this, all => all[i].View()),
            map c | c in subscribers :: subscribers[c].id,
            log)
    }

    ghost predicate Valid()
      reads this, all
    {
      Linked() && Inv(glob, View())
    }

    // The view after a step that touched one subscription only.
    twostate lemma OneChanged(i: nat)
      requires old(Linked()) && i < |all| && all == old(all) && unchanged(this)
      requires forall j | 0 <= j < |all| && j != i :: unchanged(all[j])
      ensures Linked()
      ensures View() == old(View()).(subs := old(View()).subs[i := all[i].View()])
    {
      assert View().subs == old(View()).subs[i := all[i].View()];
    }

    // What the invariant says about a listed subscription.
    lemma ListedIsOpen(c: Conn)
      requires Valid() && c in subscribers
      ensures !subscribers[c].closed && !subscribers[c].detached && |subscribers[c].buf| <= BUFFER
      ensures InTable(View(), subscribers[c].id) && View().subs[subscribers[c].id].left.None?
    {
      var i := subscribers[c].id;
      assert SubOk(glob, View().subs[i], log);
      assert View().subs[i].left.None? <==> InTable(View(), i);
    }

    // Closes the channel of a listed subscription.
    method Retire(sub: Subscriber, why: Departure)
      requires Linked() && sub in all && !sub.closed && !sub.detached
      modifies sub
      ensures Linked()
      ensures View() == old(View()).(subs := old(View()).subs[sub.id := Depart(old(View()).subs[sub.id], why, |log|)])
    {
      if why == Replaced {
        sub.detached := true;
      }
      sub.CloseChannel(why, |log|);
      OneChanged(sub.id);
    }

    method RegisterSubscriber(conn: Conn, topics: seq<string>, scope: string, trace: seq<Event>) returns (sub: Subscriber)
      requires Valid()
      modifies this, all
      ensures Valid() && fresh(sub) && all == old(all) + [sub]
      ensures View() == Next(glob, old(View()), Register(conn, topics, scope, trace))
    {
      ghost var st := View();
      if conn in subscribers {
        ListedIsOpen(conn);
      }
      sub := InstallNew(conn, topics, scope, trace);
      NextKeepsInv(glob, st, Register(conn, topics, scope, trace));
    }

    method InstallNew(conn: Conn, topics: seq<string>, scope: string, trace: seq<Event>) returns (sub: Subscriber)
      requires Linked() && TableOk(View())
      requires conn in subscribers ==> !subscribers[conn].closed && !subscribers[conn].detached
      modifies this`subscribers, this`all, all
      ensures Linked() && fresh(sub) && all == old(all) + [sub]
      ensures var mid := TakeOut(old(View()), conn, Replaced);
        View() == State(mid.subs + [NewSub(conn, topics, scope, trace)], mid.table[conn := |old(all)|], log)
    {
      ghost var st := View();
      sub := new Subscriber(conn, topics, scope, trace, |all|);
      assert View() == st;
      Install(sub);
    }

    // Replaces whatever subscription the connection had.
    method Install(sub: Subscriber)
      requires Linked() && TableOk(View()) && sub.id == |all|
      requires sub.conn in subscribers ==> !subscribers[sub.conn].closed && !subscribers[sub.conn].detached
      requires sub !in all
      modifies this`subscribers, this`all, all
      ensures Linked() && all == old(all) + [sub]
      ensures var mid := TakeOut(old(View()), sub.conn, Replaced);
        View() == State(mid.subs + [old(sub.View())], mid.table[sub.conn := |old(all)|], log)
    {
      ghost var st := View();
      if sub.conn in subscribers {
        Retire(subscribers[sub.conn], Replaced);
      }
      assert View() == TakeOut(st, sub.conn, Replaced).(table := st.table);
      AddToTable(sub);
      SameTable(st, sub.conn, |old(all)|);
    }

    lemma SameTable(st: State, c: Conn, n: nat)
      requires TableOk(st)
      ensures TakeOut(st, c, Replaced).table[c := n] == st.table[c := n]
    {
    }

    method AddToTable(sub: Subscriber)
      requires Linked() && sub.id == |all|
      modifies this`subscribers, this`all
      ensures Linked() && all == old(all) + [sub] && subscribers == old(subscribers)[sub.conn := sub]
      ensures View() == State(old(View()).subs + [sub.View()], old(View()).table[sub.conn := |old(all)|], log)
    {
      subscribers := subscribers[sub.conn := sub];
      all := all + [sub];
      assert View().subs == old(View()).subs + [sub.View()];
    }

    // One record of the replay loop. The send on an open channel would block
    // while the buffer is full; on a closed one it panics, is recovered, and
    // ends the loop.
    method ReplayRecord(sub: Subscriber) returns (more: bool)
      requires Valid() && sub in all && Enabled(glob, View(), ReplayNext(sub.id))
      modifies sub
      ensures Valid() && View() == Next(glob, old(View()), ReplayNext(sub.id))
      ensures more == !sub.broke
    {
      ghost var st := View();
      ReplaySend(sub);
      more := !sub.broke;
      OneChanged(sub.id);
      NextKeepsInv(glob, st, ReplayNext(sub.id));
    }

    method ReplaySend(sub: Subscriber)
      requires sub.cursor < |sub.trace|
      requires sub.closed || |sub.buf| < BUFFER || !TopicMatches(glob, sub.trace[sub.cursor].topic, sub.topics)
      modifies sub
      ensures var s := old(sub.View());
        var e := s.trace[s.cursor];
        sub.View() == if !TopicMatches(glob, e.topic, s.topics) then s.(cursor := s.cursor + 1)
                      else if !old(sub.closed) then s.(cursor := s.cursor + 1, buf := s.buf + [e])
                      else s.(broke := true)
    {
      var e := sub.trace[sub.cursor];
      if !TopicMatches(glob, e.topic, sub.topics) {
        sub.cursor := sub.cursor + 1;
      } else if sub.closed {
        sub.broke := true;
      } else {
        var ok := sub.TrySend(e);
        assert ok;
        sub.cursor := sub.cursor + 1;
      }
    }

    method ActivateSubscriber(sub: Subscriber)
      requires Valid() && sub in all && Enabled(glob, View(), Activate(sub.id))
      modifies sub
      ensures Valid() && View() == Next(glob, old(View()), Activate(sub.id))
    {
      ghost var st := View();
      sub.active := true;
      sub.activatedAt := Some(|log|);
      OneChanged(sub.id);
      NextKeepsInv(glob, st, Activate(sub.id));
    }

    // The writer goroutine takes a message ...
    method WriterReceive(sub: Subscriber)
      requires Valid() && sub in all && Enabled(glob, View(), Dequeue(sub.id))
      modifies sub
      ensures Valid() && View() == Next(glob, old(View()), Dequeue(sub.id))
    {
      ghost var st := View();
      var data := sub.buf[0];
      sub.buf := sub.buf[1..];
      sub.writer := Writing(data);
      sub.dequeued := sub.dequeued + [data];
      OneChanged(sub.id);
      NextKeepsInv(glob, st, Dequeue(sub.id));
    }

    // ... and writes it, leaving its loop if that fails.
    method WriterWrite(sub: Subscriber, ok: bool)
      requires Valid() && sub in all && sub.writer.Writing?
      modifies sub
      ensures Valid()
      ensures View() == Next(glob, old(View()), if ok then WriteOk(sub.id) else WriteFail(sub.id))
    {
      ghost var st := View();
      if ok {
        sub.written := sub.written + [sub.writer.event];
        sub.writer := Waiting;
      } else {
        sub.writeFailed := true;
        sub.writer := Stopping;
      }
      OneChanged(sub.id);
      NextKeepsInv(glob, st, if ok then WriteOk(sub.id) else WriteFail(sub.id));
    }

    // The channel is closed and drained: the writer's range loop ends.
    method WriterDrained(sub: Subscriber)
      requires Valid() && sub in all && Enabled(glob, View(), SeeClosed(sub.id))
      modifies sub
      ensures Valid() && View() == Next(glob, old(View()), SeeClosed(sub.id))
    {
      ghost var st := View();
      sub.writer := Stopping;
      OneChanged(sub.id);
      NextKeepsInv(glob, st, SeeClosed(sub.id));
    }

    method WriterExit(sub: Subscriber)
      requires Valid() && sub in all && sub.writer == Stopping
      modifies sub
      ensures Valid() && View() == Next(glob, old(View()), Exit(sub.id))
    {
      ghost var st := View();
      if !sub.detached {
        sub.closedConn := true;
      } else {
        sub.closedConn := false;
      }
      sub.writer := Exited;
      assert st.subs[sub.id] == old(sub.View()) && sub.View() == Finished(st.subs[sub.id]);
      OneChanged(sub.id);
      NextKeepsInv(glob, st, Exit(sub.id));
    }

    method RemoveSubscriber(conn: Conn)
      requires Valid()
      modifies this, all
      ensures Valid() && all == old(all)
      ensures View() == Next(glob, old(View()), Remove(conn))
    {
      ghost var st := View();
      if conn in subscribers {
        ListedIsOpen(conn);
        Retire(subscribers[conn], Removed);
        Delist(conn);
      }
      NextKeepsInv(glob, st, Remove(conn));
    }

    method Delist(conn: Conn)
      requires Linked()
      modifies this`subscribers
      ensures Linked() && subscribers == old(subscribers) - {conn}
      ensures View() == old(View()).(table := old(View()).table - {conn})
    {
      subscribers := subscribers - {conn};
      assert View().subs == old(View()).subs;
    }

    // Offers the event to one listed connection; a full buffer evicts it.
    method Offer(conn: Conn, e: Event)
      requires Linked() && conn in subscribers && Open(subscribers[conn].View())
      modifies this`subscribers, subscribers[conn]
      ensures Linked() && all == old(all)
      ensures var i, s := old(subscribers[conn].id), old(subscribers[conn].View());
        && View().subs == old(View()).subs[i := Receive(glob, s, true, e, |log|)]
        && View().table == if s.active && Matches(glob, e, s.topics, s.scope) && |s.buf| >= BUFFER
                           then old(View()).table - {conn} else old(View()).table
    {
      var sub := subscribers[conn];
      if sub.active && TopicMatches(glob, e.topic, sub.topics) && ScopeMatches(e.runId, sub.scope) {
        var ok := sub.TrySend(e);
        if !ok {
          subscribers := subscribers - {conn};
          sub.CloseChannel(Evicted, |log|);
        }
      }
      assert View().subs == old(View()).subs[sub.id := sub.View()];
    }

    // Half-way through a broadcast: the connections in `todo` are still waiting.
    ghost function Offered(st: State, todo: set<Conn>, e: Event): State
      requires TableOk(st)
    {
      State(
        seq(|st.subs|, i requires 0 <= i < |st.subs| =>
          if st.subs[i].conn in todo then st.subs[i] else Receive(glob, st.subs[i], InTable(st, i), e, |st.log|)),
        map c | c in st.table && (c in todo || !Evicts(glob, st, c, e)) :: st.table[c],
        st.log)
    }

    lemma OfferedStep(st: State, todo: set<Conn>, e: Event, c: Conn)
      requires TableOk(st) && c in st.table && c in todo
      ensures var s, was, now := st.subs[st.table[c]], Offered(st, todo, e), Offered(st, todo - {c}, e);
        && c in was.table && was.table[c] == st.table[c]
        && was.subs[st.table[c]] == s
        && now.subs == was.subs[st.table[c] := Receive(glob, s, true, e, |st.log|)]
        && now.table == if s.active && Matches(glob, e, s.topics, s.scope) && |s.buf| >= BUFFER
                        then was.table - {c} else was.table
    {
    }

    lemma OfferedStarts(st: State, e: Event)
      requires TableOk(st)
      ensures Offered(st, st.table.Keys, e) == st
    {
      var o := Offered(st, st.table.Keys, e);
      assert o.subs == st.subs && o.table == st.table;
    }

    lemma OfferedEnds(st: State, e: Event)
      requires TableOk(st)
      ensures Offered(st, {}, e) == Next(glob, st, Broadcast(e)).(log := st.log)
    {
      var o, t := Offered(st, {}, e), Next(glob, st, Broadcast(e));
      assert o.subs == t.subs;
      assert o.table == t.table;
    }

    // The loop over the table, in whatever order the map yields it.
    method OfferToAll(e: Event)
      requires Linked() && TableOk(View())
      requires forall c | c in View().table :: Open(View().subs[View().table[c]])
      modifies this`subscribers, all
      ensures Linked() && all == old(all)
      ensures View() == Offered(old(View()), {}, e)
    {
      ghost var st := View();
      var todo := subscribers.Keys;
      assert st.table.Keys == todo;
      OfferedStarts(st, e);
      while todo != {}
        invariant Linked() && all == old(all) && log == old(log)
        invariant todo <= st.table.Keys
        invariant View() == Offered(st, todo, e)
        decreases todo
      {
        var conn :| conn in todo;
        OfferNext(conn, e, st, todo);
        todo := todo - {conn};
      }
    }

    method OfferNext(conn: Conn, e: Event, ghost st: State, ghost todo: set<Conn>)
      requires Linked() && TableOk(st) && conn in todo && todo <= st.table.Keys
      requires View() == Offered(st, todo, e)
      requires Open(st.subs[st.table[conn]])
      modifies this`subscribers, all
      ensures Linked() && all == old(all)
      ensures View() == Offered(st, todo - {conn}, e)
    {
      OfferedStep(st, todo, e, conn);
      assert conn in View().table;
      Offer(conn, e);
    }

    method BroadcastEvent(e: Event)
      requires Valid()
      modifies this, all
      ensures Valid() && all == old(all)
      ensures View() == Next(glob, old(View()), Broadcast(e))
    {
      ghost var st := View();
      forall c | c in st.table ensures Open(st.subs[st.table[c]]) {
        ListedIsOpen(c);
      }
      OfferToAll(e);
      OfferedEnds(st, e);
      ghost var mid := View();
      log := log + [e];
      assert View().subs == mid.subs;
      NextKeepsInv(glob, st, Broadcast(e));
    }
  }
}
