// One tool call from start to result (internal/tools/invoker.go and
// validateParams in internal/tools/tool.go). The permission check and the tool
// body are given by what they return; everything the invoker decides itself is
// modelled.
module ToolInvoker {
  import opened Basics

  datatype Result = Result(content: string, isError: bool, errorType: string)

  datatype Event =
    | CallStarted(id: string, name: string)
    | PermissionRequested(id: string)
    | PermissionGranted(id: string, decision: string)
    | PermissionDenied(id: string, decision: string)
    | CallFinished(id: string, name: string, output: string, elapsed: int)
    | CallFailed(id: string, name: string, error: string, errorType: string, elapsed: int, attempt: nat)

  const MAX_RETRIES := 2
  const DENIED_MESSAGE := "Permission denied by user. You may not execute this command. "
    + "Try an alternative approach or ask the user what to do."

  // A registered tool, as far as the invoker looks at it.
  datatype Tool = Tool(required: seq<string>)

  // What one execution of the tool body does: its result or error, whether the
  // invoker's own deadline (`limit`, as it is printed) passed, whether the run is
  // cancelled by then.
  datatype Attempt = Attempt(
    res: Result, err: Option<string>, timedOut: bool, limit: string, cancelled: bool, elapsed: int)

  // What CheckAndWait returned: `asked` if it asked the user, `failed` if it
  // returned an error.
  datatype Verdict = Verdict(asked: bool, allowed: bool, decision: string, failed: bool)

  // A parameter that is present but null counts as missing.
  datatype Call = Call(
    id: string,
    name: string,
    params: map<string, Option<string>>,
    verdict: Verdict,
    attempt: nat -> Attempt)      // numbered from 1

  // Everything a call leaves behind: the events it publishes, in order, what it
  // returns, and how often the tool body ran.
  datatype Outcome = Outcome(events: seq<Event>, result: Result, bodies: nat)

  // ---- Specification ---------------------------------------------------------

  // The first required parameter that is missing.
  function Missing(required: seq<string>, params: map<string, Option<string>>): (m: Option<string>)
    ensures m.None? <==> forall r | r in required :: r in params && params[r].Some?
    ensures m.Some? ==> m.value in required && !(m.value in params && params[m.value].Some?)
  {
    if required == [] then None
    else if required[0] in params && params[required[0]].Some? then Missing(required[1..], params)
    else Some(required[0])
  }

  function FailEvent(call: Call, errorType: string, message: string, elapsed: int, attempt: nat): Event {
    CallFailed(call.id, call.name, message, errorType, elapsed, attempt)
  }

  function FailResult(errorType: string, message: string): Result {
    Result(message, true, errorType)
  }

  // The result an attempt amounts to.
  function Normalized(a: Attempt): Result {
    if a.timedOut then FailResult("timeout", "tool timed out after " + a.limit)
    else if a.err.Some? then FailResult("runtime_error", a.err.value)
    else if a.res.isError && a.res.errorType == "" then a.res.(errorType := "runtime_error")
    else a.res
  }

  predicate Retryable(errorType: string) {
    errorType == "runtime_error" || errorType == "rate_limited"
  }

  predicate RetriesAfter(a: Attempt, k: nat) {
    Normalized(a).isError && !a.timedOut && !a.cancelled && Retryable(Normalized(a).errorType) && k <= MAX_RETRIES
  }

  // The one event attempt k publishes.
  function AttemptEvent(call: Call, k: nat): Event {
    var a := call.attempt(k);
    var r := Normalized(a);
    if r.isError then FailEvent(call, r.errorType, r.content, a.elapsed, k)
    else CallFinished(call.id, call.name, r.content, a.elapsed)
  }

  // The attempts from number k on.
  function Execute(call: Call, k: nat): Outcome
    requires 1 <= k <= MAX_RETRIES + 1
    decreases MAX_RETRIES + 1 - k
  {
    var a := call.attempt(k);
    if RetriesAfter(a, k) then
      var rest := Execute(call, k + 1);
      Outcome([AttemptEvent(call, k)] + rest.events, rest.result, rest.bodies + 1)
    else
      Outcome([AttemptEvent(call, k)], ReturnedBy(a), 1)
  }

  function ReturnedBy(a: Attempt): Result {
    var r := Normalized(a);
    if r.isError then FailResult(r.errorType, r.content) else r
  }

  predicate Permitted(v: Verdict) {
    v.allowed && !v.failed
  }

  function PermissionEvents(call: Call): seq<Event> {
    var v := call.verdict;
    (if v.asked then [PermissionRequested(call.id)] else [])
    + (if Permitted(v) then (if v.decision != "auto_allow" then [PermissionGranted(call.id, v.decision)] else [])
       else (if v.decision != "auto_deny" then [PermissionDenied(call.id, v.decision)] else []))
  }

  function OutcomeOf(registry: map<string, Tool>, call: Call): Outcome {
    var started := [CallStarted(call.id, call.name)];
    if call.name !in registry then
      Outcome(started + [FailEvent(call, "runtime_error", "unknown tool: " + call.name, 0, 1)],
              FailResult("runtime_error", "unknown tool: " + call.name), 0)
    else
      var missing := Missing(registry[call.name].required, call.params);
      if missing.Some? then
        Outcome(started + [FailEvent(call, "schema_error", "missing required parameter: " + missing.value, 0, 1)],
                FailResult("schema_error", "missing required parameter: " + missing.value), 0)
      else if !Permitted(call.verdict) then
        Outcome(started + PermissionEvents(call) + [FailEvent(call, "permission_denied", DENIED_MESSAGE, 0, 1)],
                FailResult("permission_denied", DENIED_MESSAGE), 0)
      else
        var run := Execute(call, 1);
        Outcome(started + PermissionEvents(call) + run.events, run.result, run.bodies)
  }

  // ---- What it means ------------------------------------------------------------

  // The tool body runs only for a known tool with all its parameters, and only
  // if this call's own permission check allowed it.
  lemma BodyOnlyIfAllowed(registry: map<string, Tool>, call: Call)
    ensures OutcomeOf(registry, call).bodies > 0 <==>
      && call.name in registry
      && (forall r | r in registry[call.name].required :: r in call.params && call.params[r].Some?)
      && Permitted(call.verdict)
    ensures OutcomeOf(registry, call).bodies <= MAX_RETRIES + 1
  {
    ExecuteShape(call, 1);
  }

  // Each attempt publishes exactly one event; all but the last are failures
  // numbered in order, each of a kind worth retrying; the last is the outcome.
  lemma {:induction false} ExecuteShape(call: Call, k: nat)
    requires 1 <= k <= MAX_RETRIES + 1
    ensures var o := Execute(call, k);
      && 1 <= o.bodies == |o.events| <= MAX_RETRIES + 2 - k
      && (forall j | 0 <= j < |o.events| :: o.events[j] == AttemptEvent(call, k + j))
      && (forall j | k <= j < k + |o.events| - 1 :: RetriesAfter(call.attempt(j), j))
      && !RetriesAfter(call.attempt(k + |o.events| - 1), k + |o.events| - 1)
      && o.result == ReturnedBy(call.attempt(k + |o.events| - 1))
    decreases MAX_RETRIES + 1 - k
  {
    if RetriesAfter(call.attempt(k), k) {
      ExecuteShape(call, k + 1);
    }
  }

  // Among the events of the attempts, only the last can report success.
  lemma ExecuteEndsInOutcome(call: Call)
    ensures var o := Execute(call, 1);
      && |o.events| >= 1
      && (o.events[|o.events| - 1].CallFinished? <==> !o.result.isError)
      && (forall j | 0 <= j < |o.events| :: o.events[j].id == call.id)
      && (forall j | 0 <= j < |o.events| :: o.events[j].CallFinished? || o.events[j].CallFailed?)
      && (forall j | 0 <= j < |o.events| - 1 :: o.events[j].CallFailed?)
  {
    ExecuteShape(call, 1);
  }

  // A call starts with its start event and ends with its outcome event, which
  // reports success exactly when the call returns a result that is no error.
  lemma LastEventTells(registry: map<string, Tool>, call: Call)
    ensures var o := OutcomeOf(registry, call);
      && |o.events| >= 2
      && o.events[0] == CallStarted(call.id, call.name)
      && (forall j | 1 <= j < |o.events| :: !o.events[j].CallStarted?)
      && (o.events[|o.events| - 1].CallFinished? <==> !o.result.isError)
      && (o.events[|o.events| - 1].CallFailed? <==> o.result.isError)
      && (forall j | 0 <= j < |o.events| - 1 :: !o.events[j].CallFinished?)
      && (forall j | 0 <= j < |o.events| :: o.events[j].id == call.id)
  {
    ExecuteEndsInOutcome(call);
    var perm := PermissionEvents(call);
    assert forall j | 0 <= j < |perm| ::
      perm[j].id == call.id && !perm[j].CallStarted? && !perm[j].CallFinished? && !perm[j].CallFailed?;
  }

  // ---- Read off what the attempts did --------------------------------------------

  // An attempt that is no success, what it reports and under which type.
  predicate IsFailure(a: Attempt) {
    a.timedOut || a.err.Some? || a.res.isError
  }

  function ErrorText(a: Attempt): string {
    if a.timedOut then "tool timed out after " + a.limit
    else match a.err case Some(e) => e case None => a.res.content
  }

  function ErrorKind(a: Attempt): string {
    if a.timedOut then "timeout"
    else if a.err.Some? || a.res.errorType == "" then "runtime_error"
    else a.res.errorType
  }

  // It is followed by another one.
  predicate TriesAgain(a: Attempt, j: nat) {
    && (a.err.Some? || a.res.isError) && !a.timedOut && !a.cancelled && j <= 2
    && (ErrorKind(a) == "runtime_error" || ErrorKind(a) == "rate_limited")
  }

  predicate Reports(e: Event, call: Call, j: nat) {
    var a := call.attempt(j);
    e == if IsFailure(a) then CallFailed(call.id, call.name, ErrorText(a), ErrorKind(a), a.elapsed, j)
         else CallFinished(call.id, call.name, a.res.content, a.elapsed)
  }

  lemma AttemptReports(call: Call, j: nat)
    ensures Reports(AttemptEvent(call, j), call, j)
    ensures RetriesAfter(call.attempt(j), j) <==> TriesAgain(call.attempt(j), j)
    ensures ReturnedBy(call.attempt(j)) ==
      if IsFailure(call.attempt(j)) then Result(ErrorText(call.attempt(j)), true, ErrorKind(call.attempt(j))) else call.attempt(j).res
  {
    assert "timeout" != "runtime_error" && "timeout" != "rate_limited" by {
      assert "timeout"[0] != "runtime_error"[0] && "timeout"[0] != "rate_limited"[0];
    }
  }

  // What the attempts of a permitted call come to. The last is the first that is
  // not worth another one. Its own result is returned as it is if it is a
  // success; otherwise its text is, under its type. Every attempt has published
  // its own text, type, time and number.
  lemma AttemptsSay(call: Call)
    ensures var o := Execute(call, 1);
      && 1 <= o.bodies == |o.events| <= 3
      && (forall j | 1 <= j < o.bodies :: TriesAgain(call.attempt(j), j))
      && !TriesAgain(call.attempt(o.bodies), o.bodies)
      && (forall j | 0 <= j < o.bodies :: Reports(o.events[j], call, j + 1))
      && var last := call.attempt(o.bodies);
         && (!IsFailure(last) ==> o.result == last.res)
         && (last.timedOut ==> o.result == Result("tool timed out after " + last.limit, true, "timeout"))
         && (!last.timedOut && last.err.Some? ==> o.result == Result(last.err.value, true, "runtime_error"))
         && (!last.timedOut && last.err.None? && last.res.isError ==>
               o.result == Result(last.res.content, true, if last.res.errorType == "" then "runtime_error" else last.res.errorType))
  {
    ExecuteShape(call, 1);
    var o := Execute(call, 1);
    forall j | 1 <= j <= o.bodies
      ensures Reports(o.events[j - 1], call, j)
      ensures RetriesAfter(call.attempt(j), j) <==> TriesAgain(call.attempt(j), j)
    {
      AttemptReports(call, j);
      assert o.events[j - 1] == AttemptEvent(call, 1 + (j - 1));
    }
    AttemptReports(call, o.bodies);
  }

  lemma AttemptsReturn(call: Call)
    ensures 1 <= Execute(call, 1).bodies <= 3
    ensures var a := call.attempt(Execute(call, 1).bodies);
      Execute(call, 1).result == if IsFailure(a) then Result(ErrorText(a), true, ErrorKind(a)) else a.res
  {
    AttemptsSay(call);
  }

  lemma OutcomeSplits(registry: map<string, Tool>, call: Call, opening: seq<Event>)
    requires call.name in registry && call.verdict.allowed && !call.verdict.failed
    requires forall r | r in registry[call.name].required :: r in call.params && call.params[r].Some?
    requires opening == [CallStarted(call.id, call.name)]
      + ((if call.verdict.asked then [PermissionRequested(call.id)] else [])
         + (if call.verdict.decision == "auto_allow" then [] else [PermissionGranted(call.id, call.verdict.decision)]))
    ensures var o, run := OutcomeOf(registry, call), Execute(call, 1);
      && o.events[..Min(|opening|, |o.events|)] == opening && o.events[Min(|opening|, |o.events|)..] == run.events
      && o.bodies == run.bodies && o.result == run.result
  {
    assert OutcomeOf(registry, call).events == opening + Execute(call, 1).events;
  }

  // A call that may run: its start, the permission events of its own check, then
  // one report an attempt; it returns what its last attempt came to.
  lemma InvokeSays(registry: map<string, Tool>, call: Call)
    requires call.name in registry && call.verdict.allowed && !call.verdict.failed
    requires forall r | r in registry[call.name].required :: r in call.params && call.params[r].Some?
    ensures var o := OutcomeOf(registry, call);
      var opening := [CallStarted(call.id, call.name)]
        + ((if call.verdict.asked then [PermissionRequested(call.id)] else [])
           + (if call.verdict.decision == "auto_allow" then [] else [PermissionGranted(call.id, call.verdict.decision)]));
      && 1 <= o.bodies <= 3
      && |o.events| == |opening| + o.bodies && o.events[..|opening|] == opening
      && (var reports := o.events[|opening|..]; forall j | 0 <= j < |reports| :: Reports(reports[j], call, j + 1))
      && (forall j | 1 <= j < o.bodies :: TriesAgain(call.attempt(j), j))
      && !TriesAgain(call.attempt(o.bodies), o.bodies)
      && var last := call.attempt(o.bodies);
         o.result == if IsFailure(last) then Result(ErrorText(last), true, ErrorKind(last)) else last.res
  {
    AttemptsSay(call);
    AttemptsReturn(call);
    OutcomeSplits(registry, call, [CallStarted(call.id, call.name)]
      + ((if call.verdict.asked then [PermissionRequested(call.id)] else [])
         + (if call.verdict.decision == "auto_allow" then [] else [PermissionGranted(call.id, call.verdict.decision)])));
  }

  // A call that may not run is answered at once, by the first reason that applies.
  lemma UnknownToolSays(registry: map<string, Tool>, call: Call)
    requires call.name !in registry
    ensures var o := OutcomeOf(registry, call);
      && o.bodies == 0 && o.result == Result("unknown tool: " + call.name, true, "runtime_error")
      && o.events == [CallStarted(call.id, call.name),
                      CallFailed(call.id, call.name, "unknown tool: " + call.name, "runtime_error", 0, 1)]
  {
  }

  lemma MissingParameterSays(registry: map<string, Tool>, call: Call, i: nat)
    requires call.name in registry && i < |registry[call.name].required|
    requires var required := registry[call.name].required;
      && (forall j | 0 <= j < i :: required[j] in call.params && call.params[required[j]].Some?)
      && !(required[i] in call.params && call.params[required[i]].Some?)
    ensures var o, text := OutcomeOf(registry, call), "missing required parameter: " + registry[call.name].required[i];
      && o.bodies == 0 && o.result == Result(text, true, "schema_error")
      && o.events == [CallStarted(call.id, call.name), CallFailed(call.id, call.name, text, "schema_error", 0, 1)]
  {
    MissingIsFirst(registry[call.name].required, call.params, i);
  }

  lemma DeniedSays(registry: map<string, Tool>, call: Call)
    requires call.name in registry && (call.verdict.failed || !call.verdict.allowed)
    requires forall r | r in registry[call.name].required :: r in call.params && call.params[r].Some?
    ensures var o := OutcomeOf(registry, call);
      && o.bodies == 0
      && o.result == Result("Permission denied by user. You may not execute this command. "
                            + "Try an alternative approach or ask the user what to do.", true, "permission_denied")
      && o.events == [CallStarted(call.id, call.name)]
           + ((if call.verdict.asked then [PermissionRequested(call.id)] else [])
              + (if call.verdict.decision == "auto_deny" then [] else [PermissionDenied(call.id, call.verdict.decision)]))
           + [CallFailed(call.id, call.name, o.result.content, "permission_denied", 0, 1)]
  {
  }

  lemma {:induction false} MissingIsFirst(required: seq<string>, params: map<string, Option<string>>, i: nat)
    requires i < |required|
    requires forall j | 0 <= j < i :: required[j] in params && params[required[j]].Some?
    requires !(required[i] in params && params[required[i]].Some?)
    ensures Missing(required, params) == Some(required[i])
  {
    if i > 0 {
      MissingIsFirst(required[1..], params, i - 1);
    }
  }

  // ---- The invoker -----------------------------------------------------------------

  class Bus {
    var log: seq<Event>

    constructor ()
      ensures log == []
    {
      log := [];
    }

    method Publish(e: Event)
      modifies this
      ensures log == old(log) + [e]
    {
      log := log + [e];
    }
  }

  class Invoker {
    const registry: map<string, Tool>
    const bus: Bus

    constructor (registry: map<string, Tool>, bus: Bus)
      ensures this.registry == registry && this.bus == bus
    {
      this.registry, this.bus := registry, bus;
    }

    method Fail(call: Call, errorType: string, message: string, elapsed: int, attempt: nat) returns (r: Result)
      modifies bus
      ensures bus.log == old(bus.log) + [FailEvent(call, errorType, message, elapsed, attempt)]
      ensures r == FailResult(errorType, message)
    {
      bus.Publish(CallFailed(call.id, call.name, message, errorType, elapsed, attempt));
      r := Result(message, true, errorType);
    }

    method ValidateParams(required: seq<string>, params: map<string, Option<string>>) returns (missing: Option<string>)
      ensures missing == Missing(required, params)
    {
      var i := 0;
      while i < |required|
        invariant 0 <= i <= |required|
        invariant Missing(required, params) == Missing(required[i..], params)
      {
        var name := required[i];
        if !(name in params && params[name].Some?) {
          return Some(name);
        }
        i := i + 1;
      }
      missing := None;
    }

    method CheckPermission(call: Call) returns (allowed: bool)
      modifies bus
      ensures allowed == Permitted(call.verdict)
      ensures bus.log == old(bus.log) + PermissionEvents(call)
    {
      var v := call.verdict;
      if v.asked {
        bus.Publish(PermissionRequested(call.id));
      }
      if v.failed || !v.allowed {
        if v.decision != "auto_deny" {
          bus.Publish(PermissionDenied(call.id, v.decision));
        }
        return false;
      }
      if v.decision != "auto_allow" {
        bus.Publish(PermissionGranted(call.id, v.decision));
      }
      allowed := true;
    }

    // Falling out of the loop is impossible: the last attempt always returns.
    method ExecuteWithRetry(call: Call) returns (result: Result, bodies: nat)
      modifies bus
      ensures bus.log == old(bus.log) + Execute(call, 1).events
      ensures result == Execute(call, 1).result && bodies == Execute(call, 1).bodies
      ensures 1 <= bodies <= 3
      ensures !IsFailure(call.attempt(bodies)) ==> result == call.attempt(bodies).res
      ensures IsFailure(call.attempt(bodies)) ==>
        result == Result(ErrorText(call.attempt(bodies)), true, ErrorKind(call.attempt(bodies)))
    {
      AttemptsReturn(call);
      bodies := 0;
      var attempt := 1;
      while attempt <= MAX_RETRIES + 1
        invariant 1 <= attempt <= MAX_RETRIES + 1 && bodies == attempt - 1
        invariant bus.log + Execute(call, attempt).events == old(bus.log) + Execute(call, 1).events
        invariant Execute(call, attempt).result == Execute(call, 1).result
        invariant bodies + Execute(call, attempt).bodies == Execute(call, 1).bodies
      {
        ghost var before := bus.log;
        var a := call.attempt(attempt);
        bodies := bodies + 1;
        if a.timedOut {
          result := Fail(call, "timeout", "tool timed out after " + a.limit, a.elapsed, attempt);
          return;
        }
        var res := a.res;
        if a.err.Some? {
          res := Result(a.err.value, true, "runtime_error");
        }
        if res.errorType == "" && res.isError {
          res := res.(errorType := "runtime_error");
        }
        if !res.isError {
          bus.Publish(CallFinished(call.id, call.name, res.content, a.elapsed));
          return res, bodies;
        }
        if a.cancelled {
          result := Fail(call, res.errorType, res.content, a.elapsed, attempt);
          return;
        }
        if Retryable(res.errorType) && attempt <= MAX_RETRIES {
          bus.Publish(CallFailed(call.id, call.name, res.content, res.errorType, a.elapsed, attempt));
          assert before + ([AttemptEvent(call, attempt)] + Execute(call, attempt + 1).events)
              == bus.log + Execute(call, attempt + 1).events;
          attempt := attempt + 1;
        } else {
          result := Fail(call, res.errorType, res.content, a.elapsed, attempt);
          return;
        }
      }
      assert false;
      result := Result("internal error", true, "runtime_error");
    }

    method Invoke(call: Call) returns (result: Result, bodies: nat)
      modifies bus
      ensures bus.log == old(bus.log) + OutcomeOf(registry, call).events
      ensures result == OutcomeOf(registry, call).result
      ensures bodies == OutcomeOf(registry, call).bodies
      ensures bodies > 0 && !IsFailure(call.attempt(bodies)) ==> result == call.attempt(bodies).res
      ensures bodies > 0 && IsFailure(call.attempt(bodies)) ==>
        result == Result(ErrorText(call.attempt(bodies)), true, ErrorKind(call.attempt(bodies)))
    {
      bus.Publish(CallStarted(call.id, call.name));
      if call.name !in registry {
        result := Fail(call, "runtime_error", "unknown tool: " + call.name, 0, 1);
        return result, 0;
      }
      var missing := ValidateParams(registry[call.name].required, call.params);
      if missing.Some? {
        result := Fail(call, "schema_error", "missing required parameter: " + missing.value, 0, 1);
        return result, 0;
      }
      var allowed := CheckPermission(call);
      if !allowed {
        result := Fail(call, "permission_denied", DENIED_MESSAGE, 0, 1);
        return result, 0;
      }
      result, bodies := ExecuteWithRetry(call);
    }
  }
}
