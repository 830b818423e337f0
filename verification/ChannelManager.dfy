// The channel manager's objects (internal/channel/manager.go). Every method is one
// step of a reader or worker goroutine and is proved to be the corresponding
// action of SenderQueues.
module ChannelManager {
  import opened Basics
  import opened SenderQueues

  // A sender's buffered queue and the worker goroutine behind it.
  class Worker {
    const channel: string
    var queue: seq<Message>
    var current: Option<Message>
    ghost const sender: string
    ghost var done: seq<Handled>

    constructor (channel: string, ghost sender: string)
      ensures View() == NewLane(channel, sender)
    {
      this.channel, this.sender := channel, sender;
      queue, current, done := [], None, [];
    }

    ghost function View(): Lane
      reads this
    {
      Lane(channel, queue, current, sender, done)
    }
  }

  class Manager {
    const channels: set<string>
    var queues: map<string, Worker>
    var held: map<string, Message>
    ghost var arrived: map<Party, seq<Message>>
    ghost var sent: map<Party, seq<string>>

    constructor (channels: set<string>)
      ensures Valid() && View() == INIT && this.channels == channels
    {
      this.channels := channels;
      queues, held, arrived, sent := map[], map[], map[], map[];
    }

    // Different keys have different workers.
    ghost predicate Valid()
      reads this
    {
      forall j, k | j in queues && k in queues && j != k :: queues[j] != queues[k]
    }

    ghost function View(): State
      reads this, queues.Values
    {
      State(map k | k in queues :: queues[k].View(), held, arrived, sent)
    }

    // The view after a step that touched one worker only.
    twostate lemma OneChanged(k: string)
      requires old(Valid()) && k in queues && queues == old(queues)
      requires forall j | j in queues && j != k :: unchanged(queues[j])
      ensures View().lanes == old(View()).lanes[k := queues[k].View()]
    {
    }

    // The reader takes one message and fills in its channel's name.
    method ReadMessage(channel: string, incoming: Message)
      requires Valid() && Enabled(channels, View(), Arrive(channel, incoming))
      modifies this`held, this`arrived
      ensures Valid() && View() == Next(channels, old(View()), Arrive(channel, incoming))
    {
      ghost var st := View();
      var msg := incoming;
      if msg.channelName == "" {
        msg := Message(channel, msg.sender, msg.content);
      }
      held := held[channel := msg];
      arrived := Push(arrived, (channel, msg.sender), msg);
      assert View().lanes == st.lanes;
    }

    // The dispatcher looks the sender's queue up, under the lock.
    method FindQueue(channel: string)
      requires Valid() && channel in held
      modifies this`queues
      ensures Valid() && View() == Next(channels, old(View()), OpenLane(channel))
      ensures Key(channel, held[channel].sender) in queues
    {
      var key := channel + "/" + held[channel].sender;
      if key !in queues {
        AddWorker(key, channel, held[channel].sender);
      }
    }

    method AddWorker(key: string, channel: string, sender: string)
      requires Valid() && key !in queues
      modifies this`queues
      ensures Valid() && key in queues
      ensures View() == old(View()).(lanes := old(View()).lanes[key := NewLane(channel, sender)])
    {
      var w := new Worker(channel, sender);
      assert w.View() == NewLane(channel, sender);
      assert forall k | k in queues :: queues[k] != w && queues[k].View() == old(queues[k].View());
      queues := queues[key := w];
      assert View().lanes == old(View()).lanes[key := NewLane(channel, sender)];
    }

    // The send into the queue; it waits while the queue is full.
    method Dispatch(channel: string)
      requires Valid() && Enabled(channels, View(), Enqueue(channel))
      modifies this`held, queues.Values
      ensures Valid() && View() == Next(channels, old(View()), Enqueue(channel))
    {
      ghost var st := View();
      var key := channel + "/" + held[channel].sender;
      var w := queues[key];
      w.queue := w.queue + [held[channel]];
      OneChanged(key);
      held := held - {channel};
      assert View().lanes == st.lanes[key := w.View()];
    }

    // The worker takes the next message once it is done with the last.
    method TakeNext(key: string)
      requires Valid() && Enabled(channels, View(), Take(key))
      modifies queues.Values
      ensures Valid() && View() == Next(channels, old(View()), Take(key))
    {
      var w := queues[key];
      w.current := Some(w.queue[0]);
      w.queue := w.queue[1..];
      OneChanged(key);
    }

    // Routing, the handler's result (None: an error) and the reply.
    method Process(key: string, routed: bool, result: Option<string>) returns (reply: Option<string>, ghost outcome: Outcome)
      requires Valid() && key in queues && queues[key].current.Some?
      modifies this`sent, queues.Values
      ensures Valid() && View() == Next(channels, old(View()), Finish(key, outcome))
      ensures outcome == if !routed then NoAgent else if result.None? then HandlerFailed else Output(result.value)
      ensures reply == if routed && result.Some? && result.value != "" then result else None
    {
      var w := queues[key];
      reply := None;
      if !routed {
        outcome := NoAgent;
      } else if result.None? {
        outcome := HandlerFailed;
      } else {
        outcome := Output(result.value);
        if result.value != "" {
          reply := result;
          SendBack(w, result.value);
        }
      }
      MarkDone(key, outcome);
    }

    // The reply goes out on the worker's channel, to the message's sender.
    ghost method SendBack(w: Worker, text: string)
      requires Valid() && w.current.Some?
      modifies this`sent
      ensures Valid()
      ensures View() == old(View()).(sent := Push(old(sent), (w.channel, w.current.value.sender), text))
    {
      sent := Push(sent, (w.channel, w.current.value.sender), text);
      assert View().lanes == old(View()).lanes;
    }

    method MarkDone(key: string, ghost outcome: Outcome)
      requires Valid() && key in queues && queues[key].current.Some?
      modifies queues.Values
      ensures View() == old(View()).(lanes := old(View()).lanes[key := Finished(old(queues[key].View()), outcome)])
    {
      var w := queues[key];
      w.done := w.done + [Handled(w.current.value, outcome)];
      w.current := None;
      OneChanged(key);
    }
  }
}
