// Session thread files (internal/session/store.go). A thread.jsonl file is an
// append-only sequence of rows; a missing file is a missing map entry.
module SessionStore {
  import opened Messages

  // One line of a thread file: a message, or a line that does not decode.
  datatype Row = Row(message: Message) | Unreadable

  predicate ReadableRow(r: Row) {
    r.Row? && (r.message.role.User? || r.message.role.Assistant?)
  }

  // The messages a reader sees: rows that decode, with a known role.
  function Readable(rows: seq<Row>): (ms: seq<Message>) {
    if rows == [] then []
    else (if ReadableRow(rows[0]) then [rows[0].message] else []) + Readable(rows[1..])
  }

  function Rows(ms: seq<Message>): (rows: seq<Row>)
    ensures |rows| == |ms| && forall i | 0 <= i < |ms| :: rows[i] == Row(ms[i])
  {
    seq(|ms|, i requires 0 <= i < |ms| => Row(ms[i]))
  }

  lemma {:induction false} ReadableIsConversational(rows: seq<Row>)
    ensures Conversational(Readable(rows))
  {
    if rows != [] {
      ReadableIsConversational(rows[1..]);
    }
  }

  lemma {:induction false} ReadableAppend(a: seq<Row>, b: seq<Row>)
    ensures Readable(a + b) == Readable(a) + Readable(b)
  {
    if a == [] {
      assert a + b == b;
    } else {
      assert (a + b)[1..] == a[1..] + b;
      ReadableAppend(a[1..], b);
    }
  }

  // A line is shown if it decodes to a user's or an assistant's message.
  lemma ReadableOne(r: Row)
    ensures Readable([r]) == if r.Row? && r.message.role in {User, Assistant} then [r.message] else []
  {
    assert [r][1..] == [];
  }

  // Writing messages and reading them back is the identity.
  lemma {:induction false} ReadableRows(ms: seq<Message>)
    requires Conversational(ms)
    ensures Readable(Rows(ms)) == ms
  {
    if ms != [] {
      assert Rows(ms)[1..] == Rows(ms[1..]);
      ReadableRows(ms[1..]);
      assert ms == [ms[0]] + ms[1..];
    }
  }

  // ---- trimOrphanToolUse -------------------------------------------------

  // Length of the longest balanced prefix.
  function TrimLen(ms: seq<Message>): (n: nat)
    ensures n <= |ms|
    ensures Balanced(ms[..n])
    ensures forall m | n < m <= |ms| :: !Balanced(ms[..m])
    decreases |ms|
  {
    assert ms[..|ms|] == ms;
    if Balanced(ms) then |ms|
    else
      var p := ms[..|ms| - 1];
      var n := TrimLen(p);
      assert forall m | 0 <= m < |ms| :: ms[..m] == p[..m];
      n
  }

  function Trim(ms: seq<Message>): (kept: seq<Message>) {
    ms[..TrimLen(ms)]
  }

  lemma TrimLenUnique(ms: seq<Message>, n: nat)
    requires n <= |ms| && Balanced(ms[..n])
    requires forall m | n < m <= |ms| :: !Balanced(ms[..m])
    ensures TrimLen(ms) == n
  {
    var t := TrimLen(ms);
    assert Balanced(ms[..t]);
  }

  method TrimOrphanToolUse(messages: seq<Message>) returns (kept: seq<Message>)
    ensures kept <= messages && Balanced(kept)
    ensures forall m | |kept| < m <= |messages| :: !Balanced(messages[..m])
    ensures kept == Trim(messages)
  {
    var pending: set<string> := {};
    var lastBalanced := 0;
    var i := 0;
    assert messages[..0] == [];
    while i < |messages|
      invariant 0 <= lastBalanced <= i <= |messages|
      invariant pending == Pending(messages[..i], {})
      invariant Balanced(messages[..lastBalanced])
      invariant forall m | lastBalanced < m <= i :: !Balanced(messages[..m])
    {
      var msg := messages[i];
      ghost var before := pending;
      var j := 0;
      while j < |msg.content|
        invariant 0 <= j <= |msg.content|
        invariant PendingBlocks(msg.role, msg.content, before)
               == PendingBlocks(msg.role, msg.content[j..], pending)
      {
        var block := msg.content[j];
        if msg.role.Assistant? && block.kind.ToolUseBlock? {
          pending := pending + {block.id};
        } else if msg.role.User? && block.kind.ToolResultBlock? {
          pending := pending - {block.toolUseId};
        }
        j := j + 1;
      }
      assert messages[..i + 1] == messages[..i] + [msg];
      PendingAppend(messages[..i], [msg], {});
      assert [msg][1..] == [];
      if pending == {} {
        lastBalanced := i + 1;
      }
      i := i + 1;
    }
    assert messages[..i] == messages;
    kept := if pending == {} then messages else messages[..lastBalanced];
    TrimLenUnique(messages, |kept|);
  }

  lemma TrimIdentity(ms: seq<Message>)
    ensures Trim(ms) == ms <==> Balanced(ms)
  {
    assert ms[..|ms|] == ms;
    assert Trim(ms) == ms ==> TrimLen(ms) == |ms|;
  }

  lemma TrimIdempotent(ms: seq<Message>)
    ensures Trim(Trim(ms)) == Trim(ms)
  {
    TrimIdentity(Trim(ms));
  }

  // A balanced beginning is never touched: trimming only looks at what follows.
  lemma TrimDistributes(a: seq<Message>, b: seq<Message>)
    requires Balanced(a)
    ensures Trim(a + b) == a + Trim(b)
  {
    forall m | 0 <= m <= |b|
      ensures (a + b)[..|a| + m] == a + b[..m]
      ensures Balanced((a + b)[..|a| + m]) == Balanced(b[..m])
    {
      assert (a + b)[..|a| + m] == a + b[..m];
      PendingAppend(a, b[..m], {});
    }
    var n := TrimLen(b);
    forall k | |a| + n < k <= |a + b| ensures !Balanced((a + b)[..k]) {
      assert !Balanced(b[..k - |a|]);
    }
    TrimLenUnique(a + b, |a| + n);
  }

  // Once the last message of a thread leaves a call unanswered, whatever is
  // appended without answering it is invisible to every reader.
  lemma OrphanHidesTheRest(ms: seq<Message>, later: seq<Message>, id: string)
    requires id in Pending(ms, {})
    requires forall i | 0 <= i < |later| :: id !in Answers(later[i])
    ensures Trim(ms + later) == Trim(ms)
    ensures |Trim(ms)| < |ms|
  {
    var all := ms + later;
    var n := TrimLen(ms);
    assert ms[..|ms|] == ms && n != |ms|;
    forall m | 0 <= m <= |ms| ensures all[..m] == ms[..m] {}
    forall k | n < k <= |all| ensures !Balanced(all[..k]) {
      if k > |ms| {
        assert all[..k] == ms + later[..k - |ms|];
        PendingAppend(ms, later[..k - |ms|], {});
        UnansweredStaysPending(later[..k - |ms|], Pending(ms, {}), id);
      } else {
        assert all[..k] == ms[..k];
      }
    }
    TrimLenUnique(all, n);
  }

  // ---- Store ---------------------------------------------------------------

  class Store {
    var threads: map<string, seq<Row>>
    var backups: seq<(string, seq<Row>)>   // renamed thread files, oldest first

    constructor ()
      ensures threads == map[] && backups == []
    {
      threads, backups := map[], [];
    }

    // What the file of a session holds; a missing file holds nothing.
    function Thread(sid: string): seq<Row>
      reads this
    {
      if sid in threads then threads[sid] else []
    }

    // The messages a thread file holds.
    function Stored(sid: string): seq<Message>
      reads this
    {
      Readable(Thread(sid))
    }

    // The history ReadMessages hands out.
    function History(sid: string): seq<Message>
      reads this
    {
      Trim(Stored(sid))
    }

    method AppendMessages(sid: string, messages: seq<Message>)
      modifies this`threads
      ensures threads == if messages == [] then old(threads)
                         else old(threads)[sid := old(Thread(sid)) + Rows(messages)]
      ensures Conversational(messages) ==> Stored(sid) == old(Stored(sid)) + messages
    {
      ReadableAppend(Thread(sid), Rows(messages));
      if Conversational(messages) {
        ReadableRows(messages);
      }
      if messages == [] {
        assert Thread(sid) + Rows(messages) == Thread(sid);
        return;
      }
      if sid !in threads {
        threads := threads[sid := []];
      }
      var i := 0;
      ghost var before := Thread(sid);
      assert before + Rows(messages)[..0] == before;
      while i < |messages|
        invariant 0 <= i <= |messages|
        invariant threads == old(threads)[sid := before + Rows(messages)[..i]]
      {
        threads := threads[sid := threads[sid] + [Row(messages[i])]];
        assert before + Rows(messages)[..i + 1] == before + Rows(messages)[..i] + [Row(messages[i])];
        i := i + 1;
      }
      assert Rows(messages)[..i] == Rows(messages);
    }

    method ReadMessages(sid: string) returns (messages: seq<Message>)
      ensures messages == History(sid)
    {
      messages := [];
      if sid in threads {
        var rows := threads[sid];
        var i := 0;
        while i < |rows|
          invariant 0 <= i <= |rows|
          invariant messages == Readable(rows[..i])
        {
          assert rows[..i + 1] == rows[..i] + [rows[i]];
          ReadableAppend(rows[..i], [rows[i]]);
          assert [rows[i]][1..] == [];
          if ReadableRow(rows[i]) {
            messages := messages + [rows[i].message];
          }
          i := i + 1;
        }
        assert rows[..i] == rows;
      }
      messages := TrimOrphanToolUse(messages);
    }

    method ClearMessages(sid: string)
      modifies this`threads
      ensures threads == old(threads) - {sid}
      ensures Thread(sid) == []
    {
      threads := threads - {sid};
    }

    // `renamed` says whether moving the old file aside worked; the new file is
    // written either way.
    method WriteCompacted(sid: string, messages: seq<Message>, renamed: bool)
      modifies this
      ensures threads == old(threads)[sid := Rows(messages)]
      ensures backups == if renamed && sid in old(threads) then old(backups) + [(sid, old(threads)[sid])]
                         else old(backups)
    {
      if sid in threads && renamed {
        backups := backups + [(sid, threads[sid])];
      }
      threads := threads[sid := []];
      var i := 0;
      while i < |messages|
        invariant 0 <= i <= |messages|
        invariant threads == old(threads)[sid := Rows(messages)[..i]]
        invariant backups == if renamed && sid in old(threads) then old(backups) + [(sid, old(threads)[sid])]
                             else old(backups)
      {
        threads := threads[sid := threads[sid] + [Row(messages[i])]];
        assert Rows(messages)[..i + 1] == Rows(messages)[..i] + [Row(messages[i])];
        i := i + 1;
      }
      assert Rows(messages)[..i] == Rows(messages);
    }
  }
}
