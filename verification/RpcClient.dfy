// The RPC client's objects (internal/tui/client.go). Every method is one atomic
// step of a caller or of the reader goroutine and is proved to be the
// corresponding action of RpcCalls; a channel send demands room, so the proofs
// also show that the reader cannot block on a call's channel.
module RpcClient {
  import opened Basics
  import opened RpcCalls

  // One CallWithTimeout call and its response channel.
  class PendingCall {
    const id: int
    var phase: Phase
    var channel: seq<Message>
    ghost const index: nat          // position among all calls ever made
    ghost var pushed: seq<Message>

    constructor (id: int, ghost index: nat)
      ensures View() == Call(id, Numbered, [], []) && this.index == index
    {
      this.id, phase, channel, this.index, pushed := id, Numbered, [], index, [];
    }

    ghost function View(): Call
      reads this
    {
      Call(id, phase, channel, pushed)
    }

    method Push(m: Message)
      requires channel == []
      modifies this`channel, this`pushed
      ensures View() == Pushed(old(View()), m)
    {
      channel := channel + [m];
      pushed := pushed + [m];
    }
  }

  class Client {
    var nextId: int
    var responses: map<int, PendingCall>
    var claimed: Option<(PendingCall, Frame)>     // between the reader's delete and its send
    var stopped: bool                             // the read loop has returned
    var events: seq<Frame>
    ghost var all: seq<PendingCall>

    constructor ()
      ensures Valid() && View() == INIT
    {
      nextId, responses, claimed, stopped, events, all := 0, map[], None, false, [], [];
    }

    ghost predicate Linked()
      reads this, all
    {
      && (forall i | 0 <= i < |all| :: all[i].index == i)
      && (forall id | id in responses :: responses[id] in all)
      && (claimed.Some? ==> claimed.value.0 in all)
    }

    ghost function ReaderView(): Reader
      reads this
    {
      if stopped then Stopped
      else if claimed.Some? then Holding(claimed.value.0.index, claimed.value.1)
      else Idle
    }

    ghost function View(): State
      reads this, all
    {
      State(nextId, seq(|all|, i requires 0 <= i < |all| reads this, all => all[i].View()),
            map id | id in responses :: responses[id].index, ReaderView(), events)
    }

    ghost predicate Valid()
      reads this, all
    {
      Linked() && Inv(View())
    }

    // The calls after a step that touched one of them only.
    twostate lemma OneChanged(i: nat)
      requires old(Linked()) && i < |all| && all == old(all)
      requires forall j | 0 <= j < |all| && j != i :: unchanged(all[j])
      ensures View().calls == old(View()).calls[i := all[i].View()]
    {
    }

    method SetPhase(call: PendingCall, phase: Phase)
      requires Linked() && call in all
      modifies call`phase
      ensures Linked()
      ensures View() == old(View()).(calls := old(View()).calls[call.index := old(call.View()).(phase := phase)])
    {
      call.phase := phase;
      OneChanged(call.index);
    }

    method PushTo(call: PendingCall, m: Message)
      requires Linked() && call in all && call.channel == []
      modifies call`channel, call`pushed
      ensures Linked()
      ensures View() == old(View()).(calls := old(View()).calls[call.index := Pushed(old(call.View()), m)])
    {
      call.Push(m);
      OneChanged(call.index);
    }

    method AddEntry(call: PendingCall)
      requires Linked() && call in all
      modifies this`responses
      ensures Linked() && View() == old(View()).(responses := old(View()).responses[call.id := call.index])
    {
      responses := responses[call.id := call];
      assert View().calls == old(View()).calls;
    }

    method DropEntry(id: int)
      requires Linked()
      modifies this`responses
      ensures Linked() && responses == old(responses) - {id}
      ensures View() == old(View()).(responses := old(View()).responses - {id})
    {
      responses := responses - {id};
      assert View().calls == old(View()).calls;
    }

    method DrawId() returns (call: PendingCall)
      requires Valid()
      modifies this`nextId, this`all
      ensures Valid() && fresh(call) && all == old(all) + [call]
      ensures View() == Next(old(View()), Number)
    {
      ghost var st := View();
      nextId := Wrap(nextId + 1);
      if nextId <= 0 {
        nextId := 1;
      }
      call := new PendingCall(nextId, |all|);
      assert forall i | 0 <= i < |all| :: all[i].View() == st.calls[i];
      all := all + [call];
      assert View().calls == st.calls + [call.View()];
      NextKeepsInv(st, Number);
    }

    method EncodeFailed(call: PendingCall)
      requires Valid() && call in all && call.phase == Numbered
      modifies call
      ensures Valid() && View() == Next(old(View()), EncodeFails(call.index))
    {
      ghost var st := View();
      assert st.calls[call.index] == call.View();
      SetPhase(call, Ended(EncodeError));
      NextKeepsInv(st, EncodeFails(call.index));
    }

    // Registering before writing, both under the lock: the response cannot come first.
    method SendRequest(call: PendingCall, written: bool)
      requires Valid() && call in all && call.phase == Numbered
      modifies this`responses, call
      ensures Valid() && View() == Next(old(View()), Send(call.index, written))
    {
      ghost var st := View();
      assert st.calls[call.index] == call.View();
      AddEntry(call);
      if !written {
        DropEntry(call.id);
        assert View().responses == st.responses - {call.id};
        SetPhase(call, Ended(WriteError));
      } else {
        SetPhase(call, Waiting);
      }
      NextKeepsInv(st, Send(call.index, written));
    }

    // One frame off the connection: a claimed response, or else an event.
    method ReadFrame(f: Frame)
      requires Valid() && View().reader.Idle?
      modifies this`responses, this`claimed, this`events
      ensures Valid() && View() == Next(old(View()), Read(f))
    {
      ghost var st := View();
      if f.id.Some? && f.id.value in responses {
        Claim(f.id.value, f);
      } else {
        events := events + [f];
        assert View().calls == st.calls;
      }
      NextKeepsInv(st, Read(f));
    }

    method Claim(id: int, f: Frame)
      requires Linked() && !stopped && id in responses
      modifies this`responses, this`claimed
      ensures Linked()
      ensures var st := old(View());
        View() == st.(reader := Holding(st.responses[id], f), responses := st.responses - {id})
    {
      claimed := Some((responses[id], f));
      responses := responses - {id};
      assert View().calls == old(View()).calls;
    }

    // The send to the claimed call's channel, outside the lock.
    method PushClaimed()
      requires Valid() && View().reader.Holding?
      modifies this`claimed, all
      ensures Valid() && View() == Next(old(View()), Action.Push)
    {
      ghost var st := View();
      var call := claimed.value.0;
      assert st.calls[call.index] == call.View();
      PushTo(call, FromServer(claimed.value.1));
      claimed := None;
      assert View().calls == st.calls[call.index := Pushed(st.calls[call.index], FromServer(st.reader.frame))];
      NextKeepsInv(st, Action.Push);
    }

    // Half-way through the disconnect loop: the entries in `todo` still wait.
    ghost function WokenBut(st: State, todo: set<int>): seq<Call> {
      seq(|st.calls|, i requires 0 <= i < |st.calls| => if st.calls[i].id in todo then st.calls[i] else Woken(st, i))
    }

    lemma WokenStep(st: State, todo: set<int>, id: int)
      requires Inv(st) && st.reader.Idle? && id in st.responses && id in todo
      ensures EntryOk(st, id, st.responses[id]) && st.calls[st.responses[id]].channel == []
      ensures WokenBut(st, todo)[st.responses[id]] == st.calls[st.responses[id]]
      ensures WokenBut(st, todo - {id})
           == WokenBut(st, todo)[st.responses[id] := Pushed(st.calls[st.responses[id]], ConnectionClosed(id))]
    {
      assert EntryOk(st, id, st.responses[id]);
      assert CallOk(st.calls[st.responses[id]]);
    }

    method WakeOne(id: int, ghost st: State, ghost todo: set<int>)
      requires Linked() && Inv(st) && st.reader.Idle? && id in responses && id in todo
      requires View() == st.(calls := WokenBut(st, todo))
      modifies all
      ensures Linked() && View() == st.(calls := WokenBut(st, todo - {id}))
    {
      WokenStep(st, todo, id);
      var call := responses[id];
      assert View().responses[id] == call.index;
      assert View().calls[call.index] == call.View();
      PushTo(call, ConnectionClosed(id));
    }

    // The connection is gone: every entry's channel gets the news, in whatever
    // order the map yields them.
    method ConnectionLost()
      requires Valid() && View().reader.Idle?
      modifies this`stopped, all
      ensures Valid() && Enabled(old(View()), Disconnect) && View() == Next(old(View()), Disconnect)
    {
      ghost var st := View();
      IdleCanDisconnect(st);
      var todo := responses.Keys;
      assert WokenBut(st, todo) == st.calls;
      while todo != {}
        invariant Linked() && todo <= responses.Keys
        invariant View() == st.(calls := WokenBut(st, todo))
        decreases todo
      {
        var id := Pick(todo);
        WakeOne(id, st, todo);
        todo := todo - {id};
      }
      assert WokenBut(st, {}) == Next(st, Disconnect).calls;
      ghost var mid := View();
      stopped := true;
      assert View().calls == mid.calls;
      NextKeepsInv(st, Disconnect);
    }

    method ReceiveResponse(call: PendingCall) returns (m: Message)
      requires Valid() && call in all && call.phase == Waiting && call.channel != []
      modifies call
      ensures Valid() && m == old(call.channel[0]) && View() == Next(old(View()), Receive(call.index))
    {
      ghost var st := View();
      assert st.calls[call.index] == call.View();
      m := call.channel[0];
      call.channel := call.channel[1..];
      call.phase := Ended(Got(m));
      OneChanged(call.index);
      NextKeepsInv(st, Receive(call.index));
    }

    method TimerFires(call: PendingCall)
      requires Valid() && call in all && call.phase == Waiting
      modifies call
      ensures Valid() && View() == Next(old(View()), Action.Expire(call.index))
    {
      ghost var st := View();
      assert st.calls[call.index] == call.View();
      SetPhase(call, Expired);
      NextKeepsInv(st, Action.Expire(call.index));
    }

    method ReturnTimeout(call: PendingCall)
      requires Valid() && call in all && call.phase == Expired
      modifies this`responses, call
      ensures Valid() && View() == Next(old(View()), Drop(call.index))
    {
      ghost var st := View();
      assert st.calls[call.index] == call.View();
      DropEntry(call.id);
      SetPhase(call, Ended(TimedOut));
      NextKeepsInv(st, Drop(call.index));
    }
  }
}
