// The per-connection token bucket (internal/transport/websocket.go) and how the
// gateway configures it (internal/transport/gateway.go). Times are in seconds.
module RateLimiter {
  import opened Basics

  datatype Config = Config(rate: real, burst: real) {
    predicate Valid() {
      rate > 0.0 && burst >= 1.0
    }
  }

  // No limiter at all unless the rate is positive; a burst below 1 becomes 1.
  function Configured(rateLimit: real, rateBurst: real): (r: Option<Config>)
    ensures r.Some? <==> rateLimit > 0.0
    ensures r.Some? ==>
      && r.value.Valid() && r.value.rate == rateLimit
      && r.value.burst >= rateBurst && (r.value.burst == rateBurst || r.value.burst == 1.0)
  {
    if rateLimit > 0.0 then Some(Config(rateLimit, if rateBurst < 1.0 then 1.0 else rateBurst)) else None
  }

  datatype Bucket = Bucket(avail: real, last: real)

  predicate BucketOk(c: Config, b: Bucket) {
    0.0 <= b.avail <= c.burst
  }

  // Tokens that flow in over a span of time.
  function Inflow(c: Config, span: real): real {
    c.rate * span
  }

  lemma InflowNonnegative(c: Config, span: real)
    requires c.Valid() && span >= 0.0
    ensures Inflow(c, span) >= 0.0
  {
  }

  lemma InflowAdds(c: Config, a: real, b: real)
    ensures Inflow(c, a) + Inflow(c, b) == Inflow(c, a + b)
  {
  }

  // The rate, over the time from one moment to another.
  lemma InflowIs(c: Config, from: real, to: real)
    ensures Inflow(c, to - from) == c.rate * (to - from)
  {
  }

  function Refilled(c: Config, b: Bucket, now: real): real {
    var filled := b.avail + Inflow(c, now - b.last);
    if filled > c.burst then c.burst else filled
  }

  predicate Accepts(c: Config, b: Bucket, now: real) {
    Refilled(c, b, now) >= 1.0
  }

  function Spend(c: Config, b: Bucket, now: real): Bucket {
    Bucket(if Accepts(c, b, now) then Refilled(c, b, now) - 1.0 else Refilled(c, b, now), now)
  }

  // ---- Runs of calls ---------------------------------------------------------------

  function After(c: Config, b: Bucket, times: seq<real>): Bucket
    decreases |times|
  {
    if times == [] then b else After(c, Spend(c, b, times[0]), times[1..])
  }

  function Answers(c: Config, b: Bucket, times: seq<real>): seq<bool>
    decreases |times|
  {
    if times == [] then [] else [Accepts(c, b, times[0])] + Answers(c, Spend(c, b, times[0]), times[1..])
  }

  function Accepted(answers: seq<bool>): nat {
    if answers == [] then 0 else (if answers[0] then 1 else 0) + Accepted(answers[1..])
  }

  // The clock never runs backwards.
  predicate Nondecreasing(from: real, times: seq<real>)
    decreases |times|
  {
    times != [] ==> from <= times[0] && Nondecreasing(times[0], times[1..])
  }

  lemma SpendKeepsBucket(c: Config, b: Bucket, now: real)
    requires c.Valid() && BucketOk(c, b) && b.last <= now
    ensures BucketOk(c, Spend(c, b, now)) && Spend(c, b, now).last == now
    ensures 0.0 <= Refilled(c, b, now) <= c.burst
  {
    InflowNonnegative(c, now - b.last);
  }

  // The bucket stays between empty and full, at every point of every run.
  lemma {:induction false} BucketStaysOk(c: Config, b: Bucket, times: seq<real>)
    requires c.Valid() && BucketOk(c, b) && Nondecreasing(b.last, times)
    ensures BucketOk(c, After(c, b, times))
    ensures After(c, b, times).last == if times == [] then b.last else times[|times| - 1]
    decreases |times|
  {
    if times != [] {
      SpendKeepsBucket(c, b, times[0]);
      BucketStaysOk(c, Spend(c, b, times[0]), times[1..]);
    }
  }

  // What a run can accept is paid for by the tokens there at its first call and
  // those that flow in until its last.
  lemma {:induction false} AcceptedIsPaidFor(c: Config, b: Bucket, times: seq<real>)
    requires c.Valid() && BucketOk(c, b) && times != [] && Nondecreasing(b.last, times)
    ensures Accepted(Answers(c, b, times)) as real
         <= Refilled(c, b, times[0]) + Inflow(c, times[|times| - 1] - times[0])
    decreases |times|
  {
    var next := Spend(c, b, times[0]);
    var rest := times[1..];
    SpendKeepsBucket(c, b, times[0]);
    assert Answers(c, b, times)[1..] == Answers(c, next, rest);
    if rest == [] {
      assert Accepted(Answers(c, next, rest)) == 0;
      InflowNonnegative(c, 0.0);
    } else {
      AcceptedIsPaidFor(c, next, rest);
      InflowAdds(c, rest[0] - times[0], rest[|rest| - 1] - rest[0]);
    }
  }

  lemma {:induction false} NondecreasingSplits(from: real, a: seq<real>, b: seq<real>)
    requires Nondecreasing(from, a + b)
    ensures Nondecreasing(from, a) && Nondecreasing(if a == [] then from else a[|a| - 1], b)
    decreases |a|
  {
    if a == [] {
      assert a + b == b;
    } else {
      assert (a + b)[1..] == a[1..] + b;
      NondecreasingSplits(a[0], a[1..], b);
    }
  }

  lemma {:induction false} AnswersSplit(c: Config, b: Bucket, s: seq<real>, t: seq<real>)
    ensures Answers(c, b, s + t) == Answers(c, b, s) + Answers(c, After(c, b, s), t)
    ensures |Answers(c, b, s)| == |s|
    decreases |s|
  {
    if s == [] {
      assert s + t == t;
    } else {
      assert (s + t)[1..] == s[1..] + t;
      AnswersSplit(c, Spend(c, b, s[0]), s[1..], t);
    }
  }

  // A window's answers are those of a run started from where the window starts.
  lemma WindowAnswers(c: Config, b: Bucket, before: seq<real>, window: seq<real>, after: seq<real>)
    ensures |Answers(c, b, before + (window + after))| == |before| + |window| + |after|
    ensures Answers(c, b, before + (window + after))[|before|..|before| + |window|] == Answers(c, After(c, b, before), window)
  {
    var mid := After(c, b, before);
    AnswersSplit(c, b, before, window + after);
    AnswersSplit(c, mid, window, after);
    AnswersSplit(c, After(c, mid, window), after, []);
    assert after + [] == after;
  }

  // Main result: in any run, within any window of consecutive calls i..j, no
  // more than burst + rate * (length of the window) are accepted.
  lemma WindowBound(c: Config, b: Bucket, times: seq<real>, i: nat, j: nat)
    requires c.Valid() && BucketOk(c, b) && Nondecreasing(b.last, times) && i <= j < |times|
    ensures |Answers(c, b, times)| == |times|
    ensures Accepted(Answers(c, b, times)[i..j + 1]) as real <= c.burst + Inflow(c, times[j] - times[i])
  {
    var before, window, after := times[..i], times[i..j + 1], times[j + 1..];
    assert times == before + (window + after);
    WindowAnswers(c, b, before, window, after);
    WindowRun(c, b, before, window, after);
  }

  lemma {:induction false} WindowRun(c: Config, b: Bucket, before: seq<real>, window: seq<real>, after: seq<real>)
    requires c.Valid() && BucketOk(c, b) && window != [] && Nondecreasing(b.last, before + (window + after))
    ensures Accepted(Answers(c, After(c, b, before), window)) as real <= c.burst + Inflow(c, window[|window| - 1] - window[0])
  {
    NondecreasingSplits(b.last, before, window + after);
    BucketStaysOk(c, b, before);
    WindowIsPaidFor(c, After(c, b, before), window, after);
  }

  lemma WindowIsPaidFor(c: Config, b: Bucket, window: seq<real>, after: seq<real>)
    requires c.Valid() && BucketOk(c, b) && window != [] && Nondecreasing(b.last, window + after)
    ensures Accepted(Answers(c, b, window)) as real <= c.burst + Inflow(c, window[|window| - 1] - window[0])
  {
    NondecreasingSplits(b.last, window, after);
    AcceptedIsPaidFor(c, b, window);
    SpendKeepsBucket(c, b, window[0]);
  }

  // ---- What is never refused ----------------------------------------------------------

  predicate Spaced(c: Config, times: seq<real>) {
    forall k | 0 <= k < |times| - 1 :: c.rate * (times[k + 1] - times[k]) >= 1.0
  }

  // The same, in tokens.
  predicate EachRefills(c: Config, times: seq<real>) {
    forall k | 0 <= k < |times| - 1 :: Inflow(c, times[k + 1] - times[k]) >= 1.0
  }

  lemma SpacedRefills(c: Config, times: seq<real>)
    requires Spaced(c, times)
    ensures EachRefills(c, times)
  {
    forall k | 0 <= k < |times| - 1 ensures Inflow(c, times[k + 1] - times[k]) >= 1.0 {
      InflowIs(c, times[k], times[k + 1]);
    }
  }

  predicate AllAccepted(answers: seq<bool>) {
    forall k | 0 <= k < |answers| :: answers[k]
  }

  // From a bucket that accepts the first call, such calls are all accepted.
  lemma {:induction false} SpacedAreAccepted(c: Config, b: Bucket, times: seq<real>)
    requires c.Valid() && BucketOk(c, b) && Nondecreasing(b.last, times) && EachRefills(c, times)
    requires times != [] ==> Accepts(c, b, times[0])
    ensures AllAccepted(Answers(c, b, times))
    decreases |times|
  {
    if times != [] {
      var next := Spend(c, b, times[0]);
      SpendKeepsBucket(c, b, times[0]);
      var rest := times[1..];
      forall k | 0 <= k < |rest| - 1 ensures Inflow(c, rest[k + 1] - rest[k]) >= 1.0 {
        assert Inflow(c, times[(k + 1) + 1] - times[k + 1]) >= 1.0;
      }
      if rest != [] {
        assert Inflow(c, times[0 + 1] - times[0]) >= 1.0;
        assert rest[0] == times[1];
      }
      SpacedAreAccepted(c, next, rest);
    }
  }

  // A fresh limiter is full, so calls at least 1/rate apart are all accepted from
  // the first one on.
  lemma FreshSpacedAreAccepted(c: Config, start: real, times: seq<real>)
    requires c.Valid() && Nondecreasing(start, times) && Spaced(c, times)
    ensures AllAccepted(Answers(c, Bucket(c.burst, start), times))
  {
    if times != [] {
      InflowNonnegative(c, times[0] - start);
    }
    SpacedRefills(c, times);
    SpacedAreAccepted(c, Bucket(c.burst, start), times);
  }

  // ... and a burst that fits the bucket is accepted however fast it comes.
  lemma {:induction false} BurstIsAccepted(c: Config, b: Bucket, times: seq<real>)
    requires c.Valid() && BucketOk(c, b) && Nondecreasing(b.last, times) && |times| as real <= b.avail
    ensures AllAccepted(Answers(c, b, times))
    decreases |times|
  {
    if times != [] {
      SpendKeepsBucket(c, b, times[0]);
      InflowNonnegative(c, times[0] - b.last);
      BurstIsAccepted(c, Spend(c, b, times[0]), times[1..]);
    }
  }

  // ---- A refused call costs nothing -----------------------------------------------------

  lemma RefusedKeepsLevel(c: Config, b: Bucket, now: real, later: real)
    requires c.Valid() && !Accepts(c, b, now)
    ensures Refilled(c, Spend(c, b, now), later) == Refilled(c, b, later)
  {
    InflowAdds(c, now - b.last, later - now);
    assert (now - b.last) + (later - now) == later - b.last;
  }

  // Every call after it is answered as if it had not been made.
  lemma {:induction false} RefusedIsFree(c: Config, b: Bucket, now: real, rest: seq<real>)
    requires c.Valid() && !Accepts(c, b, now)
    ensures Answers(c, b, [now] + rest) == [false] + Answers(c, b, rest)
  {
    assert ([now] + rest)[1..] == rest;
    if rest != [] {
      RefusedKeepsLevel(c, b, now, rest[0]);
      assert Spend(c, Spend(c, b, now), rest[0]) == Spend(c, b, rest[0]);
    }
  }

  // ---- The limiter object ---------------------------------------------------------------

  class Limiter {
    const rate: real
    const burst: real
    var avail: real
    var last: real

    constructor (rate: real, burst: real, now: real)
      ensures Settings() == Config(rate, burst) && View() == Bucket(burst, now)
    {
      this.rate, this.burst, last, avail := rate, burst, now, burst;
    }

    function Settings(): Config {
      Config(rate, burst)
    }

    function View(): Bucket
      reads this
    {
      Bucket(avail, last)
    }

    method Allow(now: real) returns (ok: bool)
      modifies this
      ensures ok == Accepts(Settings(), old(View()), now)
      ensures View() == Spend(Settings(), old(View()), now)
    {
      var inflow := rate * (now - last);
      assert inflow == Inflow(Settings(), now - old(View()).last);
      avail := avail + inflow;
      last := now;
      if avail > burst {
        avail := burst;
      }
      assert avail == Refilled(Settings(), old(View()), now);
      if avail >= 1.0 {
        avail := avail - 1.0;
        return true;
      }
      return false;
    }
  }
}
