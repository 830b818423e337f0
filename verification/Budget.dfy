// In-memory truncation of long tool results before a request
// (internal/compact/budget.go).
module Budget {
  import opened Basics
  import opened Messages

  const TAIL := " chars omitted. Full output in run events.]"

  function Digits(n: nat): string {
    if n < 10 then ['0' + n as char] else Digits(n / 10) + ['0' + (n % 10) as char]
  }

  function Omission(omitted: nat): string {
    "\n[... " + Digits(omitted) + TAIL
  }

  function TruncateBlock(b: ContentBlock, limit: nat, keep: nat): (r: ContentBlock)
    requires keep <= limit
    ensures r == b.(content := r.content)
    ensures !b.kind.ToolResultBlock? || |b.content| <= limit ==> r == b
  {
    if b.kind.ToolResultBlock? && |b.content| > limit then
      b.(content := b.content[..keep] + Omission(|b.content| - keep))
    else b
  }

  function TruncateBlocks(bs: seq<ContentBlock>, limit: nat, keep: nat): (r: seq<ContentBlock>)
    requires keep <= limit
  {
    seq(|bs|, i requires 0 <= i < |bs| => TruncateBlock(bs[i], limit, keep))
  }

  function TruncateMessage(m: Message, limit: nat, keep: nat): (r: Message)
    requires keep <= limit
  {
    if m.role.User? then Message(m.role, TruncateBlocks(m.content, limit, keep)) else m
  }

  function Truncate(ms: seq<Message>, limit: nat, keep: nat): (r: seq<Message>)
    requires keep <= limit
  {
    seq(|ms|, i requires 0 <= i < |ms| => TruncateMessage(ms[i], limit, keep))
  }

  // What a request shows of the j-th block of the i-th message: a user's long
  // tool result is its beginning and how much was left out; all else is as it was.
  lemma TruncateSays(ms: seq<Message>, limit: nat, keep: nat, i: nat, j: nat)
    requires keep <= limit && i < |ms| && j < |ms[i].content|
    ensures var out, b := Truncate(ms, limit, keep), ms[i].content[j];
      && |out| == |ms| && out[i].role == ms[i].role && |out[i].content| == |ms[i].content|
      && out[i].content[j] ==
         if ms[i].role == User && b.kind == ToolResultBlock && |b.content| > limit
         then b.(content := b.content[..keep] + "\n[... " + Digits(|b.content| - keep) + " chars omitted. Full output in run events.]")
         else b
  {
    if ms[i].role == User && ms[i].content[j].kind == ToolResultBlock && |ms[i].content[j].content| > limit {
      var cut := ms[i].content[j].content;
      Assoc(cut[..keep], "\n[... " + Digits(|cut| - keep), " chars omitted. Full output in run events.]");
      Assoc(cut[..keep], "\n[... ", Digits(|cut| - keep));
    }
  }

  // The number a string of decimal digits stands for.
  function Number(s: string): int {
    if s == "" then 0 else Number(s[..|s| - 1]) * 10 + (s[|s| - 1] as int - '0' as int)
  }

  lemma {:induction false} DigitsAreTheNumber(n: nat)
    ensures Number(Digits(n)) == n
    ensures forall k | 0 <= k < |Digits(n)| :: '0' <= Digits(n)[k] <= '9'
    ensures |Digits(n)| > 1 ==> Digits(n)[0] != '0'
    ensures n > 0 ==> Digits(n) != "" && Digits(n)[0] != '0'
  {
    if n < 10 {
      assert Digits(n)[..0] == "";
    } else {
      DigitsAreTheNumber(n / 10);
      var d := Digits(n / 10);
      assert Digits(n)[..|d|] == d;
    }
  }

  lemma {:induction false} TruncateBlocksKeepIds(bs: seq<ContentBlock>, limit: nat, keep: nat)
    requires keep <= limit
    ensures UseIdsOf(TruncateBlocks(bs, limit, keep)) == UseIdsOf(bs)
    ensures ResultIdsOf(TruncateBlocks(bs, limit, keep)) == ResultIdsOf(bs)
  {
    if bs != [] {
      assert TruncateBlocks(bs, limit, keep)[1..] == TruncateBlocks(bs[1..], limit, keep);
      TruncateBlocksKeepIds(bs[1..], limit, keep);
    }
  }

  // Truncation touches neither roles, order nor ids: a request is as well
  // paired as the history it is cut from.
  lemma TruncateKeepsPaired(ms: seq<Message>, limit: nat, keep: nat)
    requires keep <= limit
    ensures Paired(Truncate(ms, limit, keep)) <==> Paired(ms)
  {
    var out := Truncate(ms, limit, keep);
    forall i | 0 <= i < |ms| ensures Asks(out[i]) == Asks(ms[i]) && Answers(out[i]) == Answers(ms[i]) {
      TruncateBlocksKeepIds(ms[i].content, limit, keep);
    }
    assert forall k | 0 <= k <= |ms| :: AsksBefore(out, k) == AsksBefore(ms, k) && AnswersAt(out, k) == AnswersAt(ms, k);
  }

  class ResultBudget {
    var toolResultLimit: int
    var toolResultKeep: int

    // The kept prefix never exceeds the trigger length, so slicing is in range.
    predicate Valid()
      reads this
    {
      0 < toolResultKeep <= toolResultLimit
    }

    constructor ()
      ensures Valid() && toolResultLimit == 8000 && toolResultKeep == 4000
    {
      toolResultLimit, toolResultKeep := 8000, 4000;
    }

    method SetBudget(limit: int, keep: int)
      requires Valid()
      modifies this
      ensures Valid()
      ensures toolResultLimit == if limit > 0 then limit else old(toolResultLimit)
      ensures toolResultKeep == Min(if keep > 0 then keep else old(toolResultKeep), toolResultLimit)
    {
      if limit > 0 {
        toolResultLimit := limit;
      }
      if keep > 0 {
        toolResultKeep := keep;
      }
      if toolResultKeep > toolResultLimit {
        toolResultKeep := toolResultLimit;
      }
    }

    method TruncateToolResults(messages: seq<Message>) returns (out: seq<Message>)
      requires Valid()
      ensures out == Truncate(messages, toolResultLimit, toolResultKeep)
    {
      out := [];
      var m := 0;
      while m < |messages|
        invariant 0 <= m <= |messages|
        invariant out == Truncate(messages, toolResultLimit, toolResultKeep)[..m]
      {
        var msg := messages[m];
        if !msg.role.User? {
          out := out + [msg];
        } else {
          var blocks := new ContentBlock[|msg.content|](i requires 0 <= i < |msg.content| => msg.content[i]);
          var changed := false;
          var i := 0;
          while i < blocks.Length
            invariant 0 <= i <= blocks.Length
            invariant blocks[i..] == msg.content[i..]
            invariant blocks[..i] == TruncateBlocks(msg.content, toolResultLimit, toolResultKeep)[..i]
            invariant !changed ==> blocks[..] == msg.content
          {
            var block := blocks[i];
            assert block == msg.content[i..][0];
            if block.kind.ToolResultBlock? {
              var text := block.content;
              if |text| > toolResultLimit {
                var omitted := |text| - toolResultKeep;
                blocks[i] := block.(content := text[..toolResultKeep] + Omission(omitted));
                changed := true;
              }
            }
            i := i + 1;
          }
          assert blocks[..] == TruncateBlocks(msg.content, toolResultLimit, toolResultKeep);
          out := out + [if changed then Message(msg.role, blocks[..]) else msg];
        }
        m := m + 1;
      }
    }
  }
}
