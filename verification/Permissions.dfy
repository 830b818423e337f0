// Tool permissions (internal/permissions/manager.go, policy.go): the six-phase
// decision, the wait/respond/timeout/cancel protocol as a transition system, and
// the two caches of always_* decisions.
module Permissions {
  import opened Basics

  // ---- Policies and caches -----------------------------------------------------

  datatype Default = Allow | Deny | Ask

  datatype Policy = Policy(default: Default, allowPatterns: seq<string>, denyPatterns: seq<string>)

  // Regular expressions are left uninterpreted; compile fails on an invalid one.
  datatype Rules = Rules(
    policies: map<string, Policy>,
    compile: string -> Option<string -> bool>,
    outside: string -> bool,          // the outside-cwd heuristics
    timeout: nat,                     // 0: wait without limit
    hasFile: bool)                    // always_* decisions are saved

  const DEFAULT_POLICIES: map<string, Policy> := map[
    "bash" := Policy(Ask, [], []),
    "write_file" := Policy(Ask, [], []),
    "read_file" := Policy(Allow, [], []),
    "list_dir" := Policy(Allow, [], []),
    "note_save" := Policy(Allow, [], [])]

  // Session decisions are keyed by session and tool, persistent ones by tool.
  datatype Caches = Caches(session: map<string, string>, persistent: map<string, string>)

  // gaveUp: the wait was cancelled or timed out and an error comes with the answer.
  datatype Answer = Answer(allowed: bool, reason: string, gaveUp: bool)

  function PolicyFor(rules: Rules, tool: string): Policy {
    if tool in rules.policies then rules.policies[tool] else Policy(Ask, [], [])
  }

  function Key(session: string, tool: string): string {
    session + "::" + tool
  }

  // A pattern that does not compile matches nothing.
  predicate Matches(rules: Rules, pattern: string, command: string) {
    match rules.compile(pattern)
    case Some(re) => re(command)
    case None => false
  }

  predicate AnyMatch(rules: Rules, patterns: seq<string>, command: string) {
    exists k | 0 <= k < |patterns| :: Matches(rules, patterns[k], command)
  }

  // The last always_* decision the caches hold for a session and a tool.
  function Lookup(c: Caches, session: string, tool: string): Option<string> {
    if Key(session, tool) in c.session then Some(c.session[Key(session, tool)])
    else if tool in c.persistent then Some(c.persistent[tool])
    else None
  }

  predicate Denied(rules: Rules, tool: string, command: string) {
    AnyMatch(rules, PolicyFor(rules, tool).denyPatterns, command)
  }

  predicate Outside(rules: Rules, command: string) {
    command != "" && rules.outside(command)
  }

  // Phases 1 to 5: an immediate answer, or None when the user must be asked.
  function Decide(rules: Rules, c: Caches, session: string, tool: string, command: string): Option<Answer> {
    var policy := PolicyFor(rules, tool);
    if Denied(rules, tool, command) then Some(Answer(false, "auto_deny", false))
    else if Outside(rules, command) then None
    else
      match Lookup(c, session, tool)
      case Some(v) => Some(Answer(v == "allow", "auto_" + v, false))
      case None =>
        if AnyMatch(rules, policy.allowPatterns, command) then Some(Answer(true, "auto_allow", false))
        else
          match policy.default
          case Allow => Some(Answer(true, "auto_allow", false))
          case Deny => Some(Answer(false, "auto_deny", false))
          case Ask => None
  }

  // Only bash commands are looked at; a missing or non-text one counts as empty.
  function CommandOf(tool: string, argument: Option<string>): string {
    if tool == "bash" && argument.Some? then argument.value else ""
  }

  function FromUser(decision: string): Answer {
    Answer(decision == "allow_once" || decision == "always_allow", decision, false)
  }

  function GaveUp(reason: string): Answer {
    Answer(false, reason, true)
  }

  // ---- Remembering always_* decisions -----------------------------------------------

  // A decision as it was applied; `check` is the one that applied it.
  datatype Applied = Applied(session: string, tool: string, decision: string, check: nat)

  predicate IsAlways(decision: string) {
    decision == "always_allow" || decision == "always_deny"
  }

  function Verdict(decision: string): string {
    if decision == "always_allow" then "allow" else "deny"
  }

  function Remember(c: Caches, a: Applied): Caches {
    if IsAlways(a.decision) then
      Caches(c.session[Key(a.session, a.tool) := Verdict(a.decision)], c.persistent[a.tool := Verdict(a.decision)])
    else c
  }

  // What a policy file parses to. `flat` is None when the top level holds
  // anything but strings, in particular an [always] section.
  datatype PolicyFile =
    | Missing
    | Malformed
    | Parsed(always: map<string, string>, flat: Option<map<string, string>>)

  predicate ValidDecision(d: string) {
    d == "allow" || d == "deny"
  }

  // Entry by entry: the [always] section wins over the older flat keys.
  function Entry(f: PolicyFile, tool: string): Option<string> {
    if !f.Parsed? then None
    else if tool in f.always && ValidDecision(f.always[tool]) then Some(f.always[tool])
    else if f.flat.Some? && tool in f.flat.value && ValidDecision(f.flat.value[tool]) then Some(f.flat.value[tool])
    else None
  }

  function Tools(f: PolicyFile): set<string> {
    if f.Parsed? then f.always.Keys + (if f.flat.Some? then f.flat.value.Keys else {}) else {}
  }

  function Load(f: PolicyFile): map<string, string> {
    map t | t in Tools(f) && Entry(f, t).Some? :: Entry(f, t).value
  }

  function Saved(persistent: map<string, string>): PolicyFile {
    Parsed(persistent, None)
  }

  // ---- The protocol --------------------------------------------------------------------

  datatype Phase =
    | Deciding                       // must ask, not registered yet
    | Waiting                        // registered, in the select
    | Applying(decision: string)     // the select took a decision
    | Leaving(reason: string)        // the select took cancellation or the timer
    | Done(answer: Answer)

  // One call of CheckAndWait.
  datatype Check = Check(
    id: string,
    session: string,
    tool: string,
    command: string,
    phase: Phase,
    channel: seq<string>,            // capacity 1
    // history
    seen: Caches,                    // the caches phase 3 read
    answers: seq<nat>)               // the responses sent to its channel

  // One call of Respond; `to` is the check it reached, None when it returned false.
  datatype Response = Response(id: string, decision: string, to: Option<nat>)

  datatype State = State(
    checks: seq<Check>,
    pending: map<string, nat>,
    caches: Caches,
    file: PolicyFile,
    // history
    responses: seq<Response>,
    log: seq<Applied>)               // decisions applied, in lock order

  datatype Action =
    | Begin(id: string, session: string, tool: string, command: string)
    | Register(i: nat)
    | Respond(id: string, decision: string)
    | Receive(i: nat)
    | Apply(i: nat)
    | GiveUp(i: nat, timedOut: bool)
    | Forget(i: nat)

  function Loaded(rules: Rules, file: PolicyFile): map<string, string> {
    if rules.hasFile then Load(file) else map[]
  }

  function Init(rules: Rules, file: PolicyFile): State {
    State([], map[], Caches(map[], Loaded(rules, file)), file, [], [])
  }

  predicate Enabled(rules: Rules, st: State, a: Action) {
    match a
    case Begin(_, _, _, _) => true
    case Register(i) => i < |st.checks| && st.checks[i].phase == Deciding
    case Respond(id, _) =>           // the send would block on a full channel
      id in st.pending ==> st.pending[id] < |st.checks| && |st.checks[st.pending[id]].channel| < 1
    case Receive(i) => i < |st.checks| && st.checks[i].phase == Waiting && st.checks[i].channel != []
    case Apply(i) => i < |st.checks| && st.checks[i].phase.Applying?
    case GiveUp(i, timedOut) => i < |st.checks| && st.checks[i].phase == Waiting && (timedOut ==> rules.timeout > 0)
    case Forget(i) => i < |st.checks| && st.checks[i].phase.Leaving?
  }

  function NewCheck(rules: Rules, c: Caches, id: string, session: string, tool: string, command: string): Check {
    var phase := match Decide(rules, c, session, tool, command) case Some(a) => Done(a) case None => Deciding;
    Check(id, session, tool, command, phase, [], c, [])
  }

  function Told(c: Check, decision: string, k: nat): Check {
    c.(channel := c.channel + [decision], answers := c.answers + [k])
  }

  function Took(c: Check): Check
    requires c.channel != []
  {
    c.(phase := Applying(c.channel[0]), channel := c.channel[1..])
  }

  function Settled(c: Check): Check
    requires c.phase.Applying?
  {
    c.(phase := Done(FromUser(c.phase.decision)))
  }

  function LeaveReason(timedOut: bool): string {
    if timedOut then "timeout" else "cancelled"
  }

  function AppliedBy(c: Check, i: nat): Applied
    requires c.phase.Applying?
  {
    Applied(c.session, c.tool, c.phase.decision, i)
  }

  function Next(rules: Rules, st: State, a: Action): State
    requires Enabled(rules, st, a)
  {
    match a
    case Begin(id, session, tool, command) =>
      st.(checks := st.checks + [NewCheck(rules, st.caches, id, session, tool, command)])
    case Register(i) =>
      st.(checks := st.checks[i := st.checks[i].(phase := Waiting)], pending := st.pending[st.checks[i].id := i])
    case Respond(id, d) =>
      if id in st.pending then
        var i := st.pending[id];
        st.(checks := st.checks[i := Told(st.checks[i], d, |st.responses|)],
            pending := st.pending - {id},
            responses := st.responses + [Response(id, d, Some(i))])
      else st.(responses := st.responses + [Response(id, d, None)])
    case Receive(i) => st.(checks := st.checks[i := Took(st.checks[i])])
    case Apply(i) =>
      var applied := AppliedBy(st.checks[i], i);
      var caches := Remember(st.caches, applied);
      st.(checks := st.checks[i := Settled(st.checks[i])],
          caches := caches,
          file := if IsAlways(applied.decision) && rules.hasFile then Saved(caches.persistent) else st.file,
          log := st.log + [applied])
    case GiveUp(i, timedOut) => st.(checks := st.checks[i := st.checks[i].(phase := Leaving(LeaveReason(timedOut)))])
    case Forget(i) =>
      st.(checks := st.checks[i := st.checks[i].(phase := Done(GaveUp(st.checks[i].phase.reason)))],
          pending := st.pending - {st.checks[i].id})
  }

  // ---- The invariant ----------------------------------------------------------------------

  // The response a check's channel got, if any, was a Respond for its own id.
  predicate AnswersOk(c: Check, i: nat, responses: seq<Response>) {
    && |c.channel| <= |c.answers| <= 1
    && (forall k | k in c.answers :: k < |responses| && responses[k].id == c.id && responses[k].to == Some(i))
  }

  function Decision(c: Check, responses: seq<Response>): Option<string> {
    if |c.answers| == 1 && c.answers[0] < |responses| then Some(responses[c.answers[0]].decision) else None
  }

  predicate PhaseOk(c: Check, responses: seq<Response>) {
    match c.phase
    case Deciding => c.answers == [] && c.channel == []
    case Waiting => c.channel == if Decision(c, responses).Some? then [Decision(c, responses).value] else []
    case Applying(d) => Decision(c, responses) == Some(d) && c.channel == []
    case Leaving(reason) =>
      && reason in {LeaveReason(true), LeaveReason(false)}
      && c.channel == if Decision(c, responses).Some? then [Decision(c, responses).value] else []
    case Done(a) =>
      || a == GaveUp(LeaveReason(true))
      || a == GaveUp(LeaveReason(false))
      || (Decision(c, responses).Some? && a == FromUser(Decision(c, responses).value))
  }

  predicate CheckOk(rules: Rules, c: Check, i: nat, responses: seq<Response>) {
    && AnswersOk(c, i, responses)
    && match Decide(rules, c.seen, c.session, c.tool, c.command)
       case Some(a) => c.phase == Done(a) && c.answers == [] && c.channel == []
       case None => PhaseOk(c, responses)
  }

  predicate ChecksOk(rules: Rules, checks: seq<Check>, responses: seq<Response>) {
    forall i | 0 <= i < |checks| :: CheckOk(rules, checks[i], i, responses)
  }

  // An entry belongs to a check that still waits and was told nothing.
  predicate Awaited(c: Check) {
    c.answers == [] && (c.phase.Waiting? || c.phase.Leaving?)
  }

  predicate PendingOk(checks: seq<Check>, pending: map<string, nat>) {
    forall id | id in pending :: pending[id] < |checks| && checks[pending[id]].id == id && Awaited(checks[pending[id]])
  }

  // Every response that returned true is the one its check got.
  predicate Delivered(checks: seq<Check>, responses: seq<Response>) {
    forall k | 0 <= k < |responses| && responses[k].to.Some? ::
      responses[k].to.value < |checks| && checks[responses[k].to.value].answers == [k]
  }

  function CachesAfter(loaded: map<string, string>, log: seq<Applied>): Caches {
    if log == [] then Caches(map[], loaded)
    else Remember(CachesAfter(loaded, log[..|log| - 1]), log[|log| - 1])
  }

  predicate AllValid(m: map<string, string>) {
    forall t | t in m :: ValidDecision(m[t])
  }

  predicate StoreOk(rules: Rules, st: State, loaded: map<string, string>) {
    && st.caches == CachesAfter(loaded, st.log)
    && AllValid(st.caches.persistent)
    && (rules.hasFile ==> Load(st.file) == st.caches.persistent)
  }

  predicate Inv(rules: Rules, st: State, loaded: map<string, string>) {
    && ChecksOk(rules, st.checks, st.responses)
    && PendingOk(st.checks, st.pending)
    && Delivered(st.checks, st.responses)
    && StoreOk(rules, st, loaded)
  }

  // ---- Preservation ----------------------------------------------------------------------------

  lemma MoreResponses(rules: Rules, c: Check, i: nat, responses: seq<Response>, r: Response)
    requires CheckOk(rules, c, i, responses)
    ensures CheckOk(rules, c, i, responses + [r])
  {
    if |c.answers| == 1 {
      assert c.answers[0] in c.answers;
    }
    assert Decision(c, responses + [r]) == Decision(c, responses);
  }

  // Replacing one check by a later stage of itself.
  lemma UpdateKeepsChecks(rules: Rules, st: State, i: nat, c: Check)
    requires i < |st.checks| && c.answers == st.checks[i].answers && c.id == st.checks[i].id
    requires ChecksOk(rules, st.checks, st.responses) && Delivered(st.checks, st.responses)
    requires CheckOk(rules, c, i, st.responses)
    ensures ChecksOk(rules, st.checks[i := c], st.responses) && Delivered(st.checks[i := c], st.responses)
  {
  }

  lemma UpdateKeepsPending(checks: seq<Check>, pending: map<string, nat>, i: nat, c: Check)
    requires PendingOk(checks, pending)
    requires i < |checks| && c.id == checks[i].id && (Awaited(c) || !Awaited(checks[i]))
    ensures PendingOk(checks[i := c], pending)
  {
  }

  lemma ToldKeepsCheck(rules: Rules, c: Check, i: nat, responses: seq<Response>, d: string)
    requires CheckOk(rules, c, i, responses) && Awaited(c)
    ensures CheckOk(rules, Told(c, d, |responses|), i, responses + [Response(c.id, d, Some(i))])
  {
    var rs := responses + [Response(c.id, d, Some(i))];
    var t := Told(c, d, |responses|);
    assert t.answers == [|responses|];
    assert rs[|responses|].decision == d;
    assert Decision(t, rs) == Some(d);
    assert t.channel == [d];
  }

  lemma RespondKeepsInv(rules: Rules, st: State, loaded: map<string, string>, id: string, d: string)
    requires Inv(rules, st, loaded)
    ensures Enabled(rules, st, Respond(id, d))
    ensures Inv(rules, Next(rules, st, Respond(id, d)), loaded)
  {
    RespondNeverBlocks(rules, st, loaded, id);
    var t := Next(rules, st, Respond(id, d));
    var r := t.responses[|st.responses|];
    forall i | 0 <= i < |t.checks| ensures CheckOk(rules, t.checks[i], i, t.responses) {
      MoreResponses(rules, st.checks[i], i, st.responses, r);
      if id in st.pending && st.pending[id] == i {
        ToldKeepsCheck(rules, st.checks[i], i, st.responses, d);
      }
    }
    if id in st.pending {
      assert t.checks[st.pending[id]].answers == [|st.responses|];
    }
  }

  // Nothing was ever put into the channel of a check that still has an entry.
  lemma RespondNeverBlocks(rules: Rules, st: State, loaded: map<string, string>, id: string)
    requires Inv(rules, st, loaded)
    ensures id in st.pending ==> st.pending[id] < |st.checks| && st.checks[st.pending[id]].channel == []
  {
    if id in st.pending {
      assert CheckOk(rules, st.checks[st.pending[id]], st.pending[id], st.responses);
    }
  }

  lemma BeginKeepsInv(rules: Rules, st: State, loaded: map<string, string>, a: Action)
    requires Inv(rules, st, loaded) && a.Begin?
    ensures Inv(rules, Next(rules, st, a), loaded)
  {
    var c := NewCheck(rules, st.caches, a.id, a.session, a.tool, a.command);
    assert CheckOk(rules, c, |st.checks|, st.responses);
  }

  // The steps inside one check.
  lemma StageKeepsCheck(rules: Rules, c: Check, i: nat, responses: seq<Response>, t: Check)
    requires CheckOk(rules, c, i, responses)
    requires (c.phase == Deciding && t == c.(phase := Waiting))
          || (c.phase == Waiting && c.channel != [] && t == Took(c))
          || (c.phase == Waiting && exists b: bool :: t == c.(phase := Leaving(LeaveReason(b))))
          || (c.phase.Applying? && t == Settled(c))
          || (c.phase.Leaving? && t == c.(phase := Done(GaveUp(c.phase.reason))))
    ensures CheckOk(rules, t, i, responses)
  {
    assert Decision(t, responses) == Decision(c, responses);
  }

  // What is loaded for a tool: its valid entry in the [always] section, else its
  // valid flat key.
  lemma LoadSays(f: PolicyFile, tool: string, d: string)
    ensures (tool in Load(f) && Load(f)[tool] == d) <==>
      && f.Parsed? && (d == "allow" || d == "deny")
      && ((tool in f.always && f.always[tool] == d)
          || (!(tool in f.always && (f.always[tool] == "allow" || f.always[tool] == "deny"))
              && f.flat.Some? && tool in f.flat.value && f.flat.value[tool] == d))
  {
    assert tool in Load(f) <==> tool in Tools(f) && Entry(f, tool).Some?;
  }

  lemma LoadOfSaved(m: map<string, string>)
    requires AllValid(m)
    ensures Load(Saved(m)) == m
  {
    assert Tools(Saved(m)) == m.Keys;
    forall t | t in m ensures Entry(Saved(m), t) == Some(m[t]) {
      assert ValidDecision(m[t]);
    }
  }

  lemma RememberKeepsValid(c: Caches, a: Applied)
    requires AllValid(c.persistent)
    ensures AllValid(Remember(c, a).persistent)
  {
  }

  lemma CachesAfterSnoc(loaded: map<string, string>, log: seq<Applied>, a: Applied)
    ensures CachesAfter(loaded, log + [a]) == Remember(CachesAfter(loaded, log), a)
  {
    assert (log + [a])[..|log|] == log;
  }

  lemma ApplyKeepsStore(rules: Rules, st: State, loaded: map<string, string>, i: nat)
    requires StoreOk(rules, st, loaded) && Enabled(rules, st, Apply(i))
    ensures StoreOk(rules, Next(rules, st, Apply(i)), loaded)
  {
    var a := AppliedBy(st.checks[i], i);
    CachesAfterSnoc(loaded, st.log, a);
    RememberKeepsValid(st.caches, a);
    LoadOfSaved(Remember(st.caches, a).persistent);
  }

  lemma NextKeepsInv(rules: Rules, st: State, loaded: map<string, string>, a: Action)
    requires Inv(rules, st, loaded) && Enabled(rules, st, a)
    ensures Inv(rules, Next(rules, st, a), loaded)
  {
    match a {
      case Begin(_, _, _, _) => BeginKeepsInv(rules, st, loaded, a);
      case Respond(id, d) => RespondKeepsInv(rules, st, loaded, id, d);
      case Register(i) =>
        var c := st.checks[i].(phase := Waiting);
        StageKeepsCheck(rules, st.checks[i], i, st.responses, c);
        UpdateKeepsChecks(rules, st, i, c);
        UpdateKeepsPending(st.checks, st.pending, i, c);
        assert CheckOk(rules, st.checks[i], i, st.responses);
      case Receive(i) =>
        StageKeepsCheck(rules, st.checks[i], i, st.responses, Took(st.checks[i]));
        UpdateKeepsChecks(rules, st, i, Took(st.checks[i]));
        assert CheckOk(rules, st.checks[i], i, st.responses);
        UpdateKeepsPending(st.checks, st.pending, i, Took(st.checks[i]));
      case Apply(i) =>
        StageKeepsCheck(rules, st.checks[i], i, st.responses, Settled(st.checks[i]));
        UpdateKeepsChecks(rules, st, i, Settled(st.checks[i]));
        UpdateKeepsPending(st.checks, st.pending, i, Settled(st.checks[i]));
        ApplyKeepsStore(rules, st, loaded, i);
      case GiveUp(i, timedOut) =>
        var c := st.checks[i].(phase := Leaving(LeaveReason(timedOut)));
        StageKeepsCheck(rules, st.checks[i], i, st.responses, c);
        UpdateKeepsChecks(rules, st, i, c);
        UpdateKeepsPending(st.checks, st.pending, i, c);
      case Forget(i) => ForgetKeepsInv(rules, st, loaded, i);
    }
  }

  lemma ForgetKeepsInv(rules: Rules, st: State, loaded: map<string, string>, i: nat)
    requires Inv(rules, st, loaded) && Enabled(rules, st, Forget(i))
    ensures Inv(rules, Next(rules, st, Forget(i)), loaded)
  {
    var c := st.checks[i].(phase := Done(GaveUp(st.checks[i].phase.reason)));
    StageKeepsCheck(rules, st.checks[i], i, st.responses, c);
    UpdateKeepsChecks(rules, st, i, c);
  }

  // ---- Runs ------------------------------------------------------------------------------------------

  predicate InFlight(c: Check) {
    !c.phase.Done?
  }

  // No two unfinished checks share a tool_use id.
  predicate Distinct(st: State) {
    forall i, j | 0 <= i < j < |st.checks| && InFlight(st.checks[i]) && InFlight(st.checks[j]) ::
      st.checks[i].id != st.checks[j].id
  }

  // st can be reached by acts from a manager started on that policy file; with
  // `distinct`, ids never clash on the way.
  ghost predicate Reaches(rules: Rules, file: PolicyFile, acts: seq<Action>, st: State, distinct: bool) {
    && (distinct ==> Distinct(st))
    && if acts == [] then st == Init(rules, file)
       else
         var n := |acts| - 1;
         exists pre :: Reaches(rules, file, acts[..n], pre, distinct) && Enabled(rules, pre, acts[n])
                       && st == Next(rules, pre, acts[n])
  }

  lemma LoadIsValid(f: PolicyFile)
    ensures AllValid(Load(f))
  {
    forall t | t in Load(f) ensures ValidDecision(Load(f)[t]) {
      assert Entry(f, t).Some?;
    }
  }

  lemma {:induction false} ReachableIsInv(rules: Rules, file: PolicyFile, acts: seq<Action>, st: State, distinct: bool)
    requires Reaches(rules, file, acts, st, distinct)
    ensures Inv(rules, st, Loaded(rules, file))
  {
    if acts == [] {
      LoadIsValid(file);
    } else {
      var n := |acts| - 1;
      var pre :| Reaches(rules, file, acts[..n], pre, distinct) && Enabled(rules, pre, acts[n])
                 && st == Next(rules, pre, acts[n]);
      ReachableIsInv(rules, file, acts[..n], pre, distinct);
      NextKeepsInv(rules, pre, Loaded(rules, file), acts[n]);
    }
  }

  // ---- Main results: the decision ------------------------------------------------------------------

  // Some pattern compiles and matches.
  predicate Hit(rules: Rules, patterns: seq<string>, command: string) {
    exists k | 0 <= k < |patterns| :: rules.compile(patterns[k]).Some? && rules.compile(patterns[k]).value(command)
  }

  predicate DenyHit(rules: Rules, tool: string, command: string) {
    tool in rules.policies && Hit(rules, rules.policies[tool].denyPatterns, command)
  }

  lemma HitIs(rules: Rules, patterns: seq<string>, command: string)
    ensures AnyMatch(rules, patterns, command) <==> Hit(rules, patterns, command)
  {
    forall k | 0 <= k < |patterns|
      ensures Matches(rules, patterns[k], command) <==>
              rules.compile(patterns[k]).Some? && rules.compile(patterns[k]).value(command)
    {
    }
  }

  lemma DenyHitIs(rules: Rules, tool: string, command: string)
    ensures Denied(rules, tool, command) <==> DenyHit(rules, tool, command)
  {
    if tool in rules.policies {
      HitIs(rules, rules.policies[tool].denyPatterns, command);
    }
  }

  // A deny pattern refuses at once, whatever was cached; an outside-cwd command
  // is never answered from the caches or the policy.
  lemma CachesCannotOverride(rules: Rules, c: Caches, session: string, tool: string, command: string)
    ensures DenyHit(rules, tool, command) ==> Decide(rules, c, session, tool, command) == Some(Answer(false, "auto_deny", false))
    ensures !DenyHit(rules, tool, command) && command != "" && rules.outside(command) ==>
      Decide(rules, c, session, tool, command) == None
  {
    DenyHitIs(rules, tool, command);
  }

  // What is answered when neither applies: first what is remembered, then the
  // allow patterns, then the tool's default, which for an unknown tool is to ask.
  lemma DecideInOrder(rules: Rules, c: Caches, session: string, tool: string, command: string)
    requires !DenyHit(rules, tool, command) && (command == "" || !rules.outside(command))
    ensures Decide(rules, c, session, tool, command) ==
      if Lookup(c, session, tool).Some? then
        Some(Answer(Lookup(c, session, tool).value == "allow", "auto_" + Lookup(c, session, tool).value, false))
      else if tool !in rules.policies then None
      else if Hit(rules, rules.policies[tool].allowPatterns, command) || rules.policies[tool].default == Allow then
        Some(Answer(true, "auto_allow", false))
      else if rules.policies[tool].default == Deny then Some(Answer(false, "auto_deny", false))
      else None
  {
    DenyHitIs(rules, tool, command);
    if tool in rules.policies {
      HitIs(rules, rules.policies[tool].allowPatterns, command);
    }
  }

  // Under the default policies, with nothing cached, exactly the three harmless
  // tools run unasked; everything else, unknown tools included, asks.
  lemma DefaultsAskIff(rules: Rules, c: Caches, session: string, tool: string, argument: Option<string>)
    requires rules.policies == DEFAULT_POLICIES && Lookup(c, session, tool).None?
    ensures Decide(rules, c, session, tool, CommandOf(tool, argument)) ==
      if tool in {"read_file", "list_dir", "note_save"} then Some(Answer(true, "auto_allow", false)) else None
  {
    var policy := PolicyFor(rules, tool);
    assert policy.denyPatterns == [] && policy.allowPatterns == [];
    if tool == "bash" {
      assert tool !in {"read_file", "list_dir", "note_save"};
    }
  }

  // Whatever ran before, and with any clash of ids: a check with a deny hit ends
  // in refusal without being asked; an outside-cwd check is allowed only by a
  // response sent to that very check, under its own id, saying so.
  lemma {:induction false} OverridesOnlyByOwnResponse(rules: Rules, file: PolicyFile, acts: seq<Action>, st: State, i: nat)
    requires Reaches(rules, file, acts, st, false) && i < |st.checks|
    ensures var c := st.checks[i];
      && (DenyHit(rules, c.tool, c.command) ==> c.phase == Done(Answer(false, "auto_deny", false)) && c.answers == [])
      && (c.command != "" && rules.outside(c.command) && c.phase.Done? && c.phase.answer.allowed ==>
            exists k | 0 <= k < |st.responses| ::
              && st.responses[k].to == Some(i) && st.responses[k].id == c.id
              && st.responses[k].decision in {"allow_once", "always_allow"})
  {
    ReachableIsInv(rules, file, acts, st, false);
    var c := st.checks[i];
    assert CheckOk(rules, c, i, st.responses);
    CachesCannotOverride(rules, c.seen, c.session, c.tool, c.command);
    if c.command != "" && rules.outside(c.command) && c.phase.Done? && c.phase.answer.allowed {
      assert c.answers[0] in c.answers;
      assert st.responses[c.answers[0]].to == Some(i);
    }
  }

  // ---- Main results: the protocol -------------------------------------------------------------------

  // What a check's own invariant says about its channel and its answer.
  lemma CheckSays(rules: Rules, c: Check, i: nat, responses: seq<Response>)
    requires CheckOk(rules, c, i, responses)
    ensures |c.answers| <= 1 && |c.channel| <= 1
    ensures c.phase.Done? && !c.phase.answer.gaveUp && Decide(rules, c.seen, c.session, c.tool, c.command).None? ==>
      && |c.answers| == 1 && c.answers[0] < |responses|
      && responses[c.answers[0]] == Response(c.id, c.phase.answer.reason, Some(i))
      && c.phase.answer == FromUser(c.phase.answer.reason)
  {
    if |c.answers| == 1 {
      var k := c.answers[0];
      assert k in c.answers;
      var d := responses[k].decision;
      assert responses[k] == Response(c.id, d, Some(i));
      assert Decision(c, responses) == Some(d);
      assert FromUser(d).reason == d;
    }
  }

  // Each check is sent at most one decision, no finished check keeps a pending
  // entry, and a user's decision is reported only after a Respond for that id
  // with that decision returned true.
  lemma {:induction false} AtMostOneDecision(rules: Rules, file: PolicyFile, acts: seq<Action>, st: State, i: nat)
    requires Reaches(rules, file, acts, st, false) && i < |st.checks|
    ensures var c := st.checks[i];
      && |c.answers| <= 1 && |c.channel| <= 1
      && (forall k | 0 <= k < |st.responses| && st.responses[k].to == Some(i) :: c.answers == [k])
      && (c.phase.Done? ==> forall id | id in st.pending :: st.pending[id] != i)
      && (c.phase.Done? && !c.phase.answer.gaveUp && Decide(rules, c.seen, c.session, c.tool, c.command).None? ==>
            c.phase.answer == FromUser(c.phase.answer.reason)
            && Response(c.id, c.phase.answer.reason, Some(i)) in st.responses)
  {
    ReachableIsInv(rules, file, acts, st, false);
    CheckSays(rules, st.checks[i], i, st.responses);
  }

  // An answer, once given, stands, and nothing starts the check again.
  lemma DoneIsFinal(rules: Rules, st: State, loaded: map<string, string>, a: Action, i: nat)
    requires Inv(rules, st, loaded) && Enabled(rules, st, a)
    requires i < |st.checks| && st.checks[i].phase.Done?
    ensures i < |Next(rules, st, a).checks| && Next(rules, st, a).checks[i] == st.checks[i]
  {
  }

  // A check that still waits, told nothing, owns the entry under its id.
  predicate OwnsEntry(st: State, i: nat)
    requires i < |st.checks|
  {
    st.checks[i].id in st.pending && st.pending[st.checks[i].id] == i
  }

  // The steps that write or delete an entry, whoever it belongs to.
  predicate TouchedByOther(st: State, a: Action, i: nat)
    requires i < |st.checks|
  {
    (a.Register? || a.Forget?) && a.i != i && a.i < |st.checks| && st.checks[a.i].id == st.checks[i].id
  }

  // After i registered, another check under the same id registered or gave up.
  predicate Disturbed(acts: seq<Action>, st: State, i: nat)
    requires i < |st.checks|
  {
    exists b | 0 <= b < |acts| :: Register(i) in acts[..b] && TouchedByOther(st, acts[b], i)
  }

  // Checks keep their ids; which of them wait, and which steps they have taken.
  lemma StepKeepsIds(rules: Rules, st: State, a: Action)
    requires Enabled(rules, st, a)
    ensures |st.checks| <= |Next(rules, st, a).checks|
    ensures forall i | 0 <= i < |st.checks| :: Next(rules, st, a).checks[i].id == st.checks[i].id
  {
  }

  predicate ActsOk(acts: seq<Action>, st: State) {
    && (forall k | 0 <= k < |acts| && (acts[k].Register? || acts[k].Forget?) :: acts[k].i < |st.checks|)
    && (forall i | 0 <= i < |st.checks| ::
          && (st.checks[i].phase == Deciding ==> Register(i) !in acts)
          && (Awaited(st.checks[i]) ==> Register(i) in acts))
  }

  lemma SnocMember<T>(xs: seq<T>, x: T)
    ensures forall y :: y in xs + [x] <==> y in xs || y == x
  {
  }

  lemma StepKeepsActsOk(rules: Rules, acts: seq<Action>, st: State, a: Action)
    requires ActsOk(acts, st) && Enabled(rules, st, a)
    ensures ActsOk(acts + [a], Next(rules, st, a))
  {
    var t := Next(rules, st, a);
    SnocMember(acts, a);
    StepKeepsIds(rules, st, a);
    forall i | 0 <= i < |t.checks|
      ensures t.checks[i].phase == Deciding ==> Register(i) !in acts + [a]
      ensures Awaited(t.checks[i]) ==> Register(i) in acts + [a]
    {
      if i < |st.checks| {
        assert st.checks[i].phase == Deciding ==> Register(i) !in acts;
        assert Awaited(st.checks[i]) ==> Register(i) in acts;
      }
    }
  }

  lemma {:induction false} ReachableActsOk(rules: Rules, file: PolicyFile, acts: seq<Action>, st: State, distinct: bool)
    requires Reaches(rules, file, acts, st, distinct)
    ensures ActsOk(acts, st)
  {
    if acts != [] {
      var n := |acts| - 1;
      var pre :| Reaches(rules, file, acts[..n], pre, distinct) && Enabled(rules, pre, acts[n])
                 && st == Next(rules, pre, acts[n]);
      ReachableActsOk(rules, file, acts[..n], pre, distinct);
      StepKeepsActsOk(rules, acts[..n], pre, acts[n]);
      assert acts == acts[..n] + [acts[n]];
    }
  }

  // How one more step disturbs a check that was registered before it.
  lemma DisturbedSnoc(rules: Rules, acts: seq<Action>, st: State, a: Action, i: nat)
    requires Enabled(rules, st, a) && i < |st.checks| && ActsOk(acts, st) && Register(i) in acts
    ensures i < |Next(rules, st, a).checks|
    ensures Disturbed(acts + [a], Next(rules, st, a), i) <==> Disturbed(acts, st, i) || TouchedByOther(st, a, i)
  {
    var t, longer := Next(rules, st, a), acts + [a];
    StepKeepsIds(rules, st, a);
    assert longer[..|acts|] == acts;
    forall b | 0 <= b < |acts| ensures longer[..b] == acts[..b] && longer[b] == acts[b] {
    }
    if b :| 0 <= b < |acts| && Register(i) in acts[..b] && TouchedByOther(st, acts[b], i) {
      assert TouchedByOther(t, longer[b], i);
    }
    if TouchedByOther(st, a, i) {
      assert TouchedByOther(t, longer[|acts|], i);
    }
    if b :| 0 <= b < |longer| && Register(i) in longer[..b] && TouchedByOther(t, longer[b], i) {
      assert TouchedByOther(st, longer[b], i);
    }
  }

  // One step, for a check that waits before and after it.
  lemma StepMovesEntry(rules: Rules, st: State, a: Action, i: nat)
    requires Enabled(rules, st, a) && PendingOk(st.checks, st.pending)
    requires i < |st.checks| && Awaited(st.checks[i]) && Awaited(Next(rules, st, a).checks[i])
    ensures OwnsEntry(Next(rules, st, a), i) <==> OwnsEntry(st, i) && !TouchedByOther(st, a, i)
  {
  }

  lemma StepRegisters(rules: Rules, acts: seq<Action>, st: State, i: nat)
    requires Enabled(rules, st, Register(i)) && ActsOk(acts, st)
    ensures OwnsEntry(Next(rules, st, Register(i)), i)
    ensures !Disturbed(acts + [Register(i)], Next(rules, st, Register(i)), i)
  {
    var longer := acts + [Register(i)];
    assert forall b | 0 <= b < |longer| :: longer[..b] == acts[..b];
    assert forall b, x | 0 <= b <= |acts| && x in acts[..b] :: x in acts;
  }

  lemma AwaitedBefore(rules: Rules, st: State, a: Action, i: nat)
    requires Enabled(rules, st, a) && i < |Next(rules, st, a).checks| && Awaited(Next(rules, st, a).checks[i])
    ensures a != Register(i) ==> i < |st.checks| && Awaited(st.checks[i])
  {
  }

  // Exactly when a waiting check can still be reached, in any run: it owns its
  // entry if and only if no other check under its id registered or gave up after
  // it registered.
  lemma {:induction false} OwnsEntryIff(rules: Rules, file: PolicyFile, acts: seq<Action>, st: State, i: nat)
    requires Reaches(rules, file, acts, st, false) && i < |st.checks| && Awaited(st.checks[i])
    ensures OwnsEntry(st, i) <==> !Disturbed(acts, st, i)
  {
    assert acts != [];
    var n := |acts| - 1;
    var a := acts[n];
    var pre :| Reaches(rules, file, acts[..n], pre, false) && Enabled(rules, pre, a) && st == Next(rules, pre, a);
    assert acts == acts[..n] + [a];
    ReachableActsOk(rules, file, acts[..n], pre, false);
    if a == Register(i) {
      StepRegisters(rules, acts[..n], pre, i);
    } else {
      AwaitedBefore(rules, pre, a, i);
      OwnsEntryIff(rules, file, acts[..n], pre, i);
      ReachableIsInv(rules, file, acts[..n], pre, false);
      StepMovesEntry(rules, pre, a, i);
      DisturbedSnoc(rules, acts[..n], pre, a, i);
    }
  }

  // With distinct ids in flight that never happens.
  lemma {:induction false} DistinctIsUndisturbed(rules: Rules, file: PolicyFile, acts: seq<Action>, st: State, i: nat)
    requires Reaches(rules, file, acts, st, true) && i < |st.checks| && Awaited(st.checks[i])
    ensures !Disturbed(acts, st, i)
  {
    assert acts != [];
    var n := |acts| - 1;
    var a := acts[n];
    var pre :| Reaches(rules, file, acts[..n], pre, true) && Enabled(rules, pre, a) && st == Next(rules, pre, a);
    assert acts == acts[..n] + [a];
    ReachableActsOk(rules, file, acts[..n], pre, true);
    if a == Register(i) {
      StepRegisters(rules, acts[..n], pre, i);
    } else {
      AwaitedBefore(rules, pre, a, i);
      DistinctIsUndisturbed(rules, file, acts[..n], pre, i);
      DistinctIsUntouched(rules, pre, a, i);
      DisturbedSnoc(rules, acts[..n], pre, a, i);
    }
  }

  lemma DistinctIsUntouched(rules: Rules, st: State, a: Action, i: nat)
    requires Enabled(rules, st, a) && Distinct(st) && i < |st.checks| && Awaited(st.checks[i])
    ensures !TouchedByOther(st, a, i)
  {
    if (a.Register? || a.Forget?) && a.i != i {
      assert InFlight(st.checks[i]) && InFlight(st.checks[a.i]);
    }
  }

  lemma {:induction false} DistinctAlso(rules: Rules, file: PolicyFile, acts: seq<Action>, st: State)
    requires Reaches(rules, file, acts, st, true)
    ensures Reaches(rules, file, acts, st, false)
  {
    if acts != [] {
      var n := |acts| - 1;
      var pre :| Reaches(rules, file, acts[..n], pre, true) && Enabled(rules, pre, acts[n])
                 && st == Next(rules, pre, acts[n]);
      DistinctAlso(rules, file, acts[..n], pre);
    }
  }

  lemma {:induction false} DistinctOwnEntries(rules: Rules, file: PolicyFile, acts: seq<Action>, st: State, i: nat)
    requires Reaches(rules, file, acts, st, true) && i < |st.checks| && Awaited(st.checks[i])
    ensures OwnsEntry(st, i)
  {
    DistinctAlso(rules, file, acts, st);
    OwnsEntryIff(rules, file, acts, st, i);
    DistinctIsUndisturbed(rules, file, acts, st, i);
  }

  // What follows when a response reaches a waiting check.
  lemma AnswerEndsCheck(rules: Rules, st: State, i: nat, d: string)
    requires i < |st.checks| && st.checks[i].phase == Waiting && st.checks[i].channel == []
    requires st.checks[i].id in st.pending && st.pending[st.checks[i].id] == i
    ensures Enabled(rules, st, Respond(st.checks[i].id, d))
    ensures var st1 := Next(rules, st, Respond(st.checks[i].id, d));
      && st1.responses == st.responses + [Response(st.checks[i].id, d, Some(i))]
      && Enabled(rules, st1, Receive(i))
      && var st2 := Next(rules, st1, Receive(i));
         Enabled(rules, st2, Apply(i)) && Next(rules, st2, Apply(i)).checks[i].phase == Done(FromUser(d))
  {
    var st1 := Next(rules, st, Respond(st.checks[i].id, d));
    assert st1.checks[i].channel == [d];
    var st2 := Next(rules, st1, Receive(i));
    assert st2.checks[i].phase == Applying(d);
  }

  // Exactly which waiting checks a Respond reaches. One that waits either has its
  // decision in the channel already, or the next Respond with its id reaches it if
  // and only if it was not disturbed; and then taking and applying that ends the
  // check with that decision.
  lemma {:induction false} WaitingIsReachedIff(rules: Rules, file: PolicyFile, acts: seq<Action>, st: State, i: nat, d: string)
    requires Reaches(rules, file, acts, st, false) && i < |st.checks| && st.checks[i].phase == Waiting
    ensures st.checks[i].channel != [] ==> Enabled(rules, st, Receive(i))
    ensures st.checks[i].channel == [] ==>
      && Enabled(rules, st, Respond(st.checks[i].id, d))
      && var st1 := Next(rules, st, Respond(st.checks[i].id, d));
      && (st1.responses == st.responses + [Response(st.checks[i].id, d, Some(i))] <==> !Disturbed(acts, st, i))
      && (!Disturbed(acts, st, i) ==>
            && Enabled(rules, st1, Receive(i))
            && var st2 := Next(rules, st1, Receive(i));
               Enabled(rules, st2, Apply(i)) && Next(rules, st2, Apply(i)).checks[i].phase == Done(FromUser(d)))
  {
    ReachableIsInv(rules, file, acts, st, false);
    WaitingIsUntold(rules, st.checks[i], i, st.responses);
    if st.checks[i].channel == [] {
      OwnsEntryIff(rules, file, acts, st, i);
      RespondNeverBlocks(rules, st, Loaded(rules, file), st.checks[i].id);
      if OwnsEntry(st, i) {
        AnswerEndsCheck(rules, st, i, d);
      } else {
        AnswerMissesCheck(rules, st, i, d);
      }
    }
  }

  // With distinct ids in flight, therefore, no check is ever stranded.
  lemma {:induction false} WaitingCanBeAnswered(rules: Rules, file: PolicyFile, acts: seq<Action>, st: State, i: nat, d: string)
    requires Reaches(rules, file, acts, st, true) && i < |st.checks| && st.checks[i].phase == Waiting
    ensures
      if st.checks[i].channel != [] then Enabled(rules, st, Receive(i))
      else
        && Enabled(rules, st, Respond(st.checks[i].id, d))
        && var st1 := Next(rules, st, Respond(st.checks[i].id, d));
        && st1.responses == st.responses + [Response(st.checks[i].id, d, Some(i))]
        && Enabled(rules, st1, Receive(i))
        && var st2 := Next(rules, st1, Receive(i));
           Enabled(rules, st2, Apply(i)) && Next(rules, st2, Apply(i)).checks[i].phase == Done(FromUser(d))
  {
    DistinctAlso(rules, file, acts, st);
    WaitingIsReachedIff(rules, file, acts, st, i, d);
    ReachableIsInv(rules, file, acts, st, true);
    WaitingIsUntold(rules, st.checks[i], i, st.responses);
    if st.checks[i].channel == [] {
      DistinctIsUndisturbed(rules, file, acts, st, i);
    }
  }

  lemma AnswerMissesCheck(rules: Rules, st: State, i: nat, d: string)
    requires i < |st.checks| && !OwnsEntry(st, i) && Enabled(rules, st, Respond(st.checks[i].id, d))
    ensures Next(rules, st, Respond(st.checks[i].id, d)).responses != st.responses + [Response(st.checks[i].id, d, Some(i))]
  {
    var responses := Next(rules, st, Respond(st.checks[i].id, d)).responses;
    assert responses[|st.responses|].to != Some(i);
  }

  lemma WaitingIsUntold(rules: Rules, c: Check, i: nat, responses: seq<Response>)
    requires CheckOk(rules, c, i, responses) && c.phase == Waiting
    ensures c.channel == [] <==> Awaited(c)
  {
    if |c.answers| == 1 {
      assert c.answers[0] in c.answers;
    }
  }

  // ---- When an accepted decision stands ----------------------------------------------------------

  // A check gave up, for the reason it gave, exactly if the run says so.
  predicate GivesUpAsSaid(acts: seq<Action>, c: Check, i: nat) {
    forall timedOut: bool :: GiveUp(i, timedOut) in acts <==>
      c.phase == Leaving(LeaveReason(timedOut)) || c.phase == Done(GaveUp(LeaveReason(timedOut)))
  }

  lemma StepGivesUpAsSaid(rules: Rules, acts: seq<Action>, st: State, a: Action, i: nat)
    requires Enabled(rules, st, a) && i < |st.checks| && GivesUpAsSaid(acts, st.checks[i], i)
    requires st.checks[i].phase.Leaving? ==> exists b: bool :: st.checks[i].phase == Leaving(LeaveReason(b))
    ensures i < |Next(rules, st, a).checks| && GivesUpAsSaid(acts + [a], Next(rules, st, a).checks[i], i)
  {
    SnocMember(acts, a);
    assert LeaveReason(true) != LeaveReason(false) by { assert |LeaveReason(true)| != |LeaveReason(false)|; }
  }

  lemma NewGivesUpAsSaid(rules: Rules, acts: seq<Action>, st: State, a: Action, i: nat)
    requires Enabled(rules, st, a) && |st.checks| <= i < |Next(rules, st, a).checks|
    requires forall timedOut: bool :: GiveUp(i, timedOut) !in acts
    ensures GivesUpAsSaid(acts + [a], Next(rules, st, a).checks[i], i)
  {
    SnocMember(acts, a);
    assert a.Begin?;
  }

  lemma {:induction false} OnlyExistingGiveUp(rules: Rules, file: PolicyFile, acts: seq<Action>, st: State, i: nat,
                                              timedOut: bool)
    requires Reaches(rules, file, acts, st, false) && GiveUp(i, timedOut) in acts
    ensures i < |st.checks| && (timedOut ==> rules.timeout > 0)
  {
    var n := |acts| - 1;
    var pre :| Reaches(rules, file, acts[..n], pre, false) && Enabled(rules, pre, acts[n]) && st == Next(rules, pre, acts[n]);
    StepKeepsIds(rules, pre, acts[n]);
    SnocMember(acts[..n], acts[n]);
    assert acts == acts[..n] + [acts[n]];
    if acts[n] != GiveUp(i, timedOut) {
      OnlyExistingGiveUp(rules, file, acts[..n], pre, i, timedOut);
    }
  }

  lemma {:induction false} ReachableGivesUpAsSaid(rules: Rules, file: PolicyFile, acts: seq<Action>, st: State, i: nat)
    requires Reaches(rules, file, acts, st, false) && i < |st.checks|
    ensures GivesUpAsSaid(acts, st.checks[i], i)
  {
    assert acts != [];
    var n := |acts| - 1;
    var pre :| Reaches(rules, file, acts[..n], pre, false) && Enabled(rules, pre, acts[n]) && st == Next(rules, pre, acts[n]);
    assert acts == acts[..n] + [acts[n]];
    if i < |pre.checks| {
      ReachableIsInv(rules, file, acts[..n], pre, false);
      ReachableGivesUpAsSaid(rules, file, acts[..n], pre, i);
      assert CheckOk(rules, pre.checks[i], i, pre.responses);
      StepGivesUpAsSaid(rules, acts[..n], pre, acts[n], i);
    } else {
      forall timedOut: bool ensures GiveUp(i, timedOut) !in acts[..n] {
        if GiveUp(i, timedOut) in acts[..n] {
          OnlyExistingGiveUp(rules, file, acts[..n], pre, i, timedOut);
        }
      }
      NewGivesUpAsSaid(rules, acts[..n], pre, acts[n], i);
    }
  }

  // Exactly when a decision that Respond accepted is the check's answer: the
  // check neither timed out nor was cancelled first. Without a timer only
  // cancellation can come first.
  lemma {:induction false} AcceptedStandsIff(rules: Rules, file: PolicyFile, acts: seq<Action>, st: State, i: nat, k: nat)
    requires Reaches(rules, file, acts, st, false)
    requires i < |st.checks| && st.checks[i].phase.Done? && k < |st.responses| && st.responses[k].to == Some(i)
    ensures var d := st.responses[k].decision;
      st.checks[i].phase.answer == Answer(d == "allow_once" || d == "always_allow", d, false)
      <==> GiveUp(i, true) !in acts && GiveUp(i, false) !in acts
    ensures st.checks[i].phase.answer ==
      if GiveUp(i, true) in acts then Answer(false, "timeout", true)
      else if GiveUp(i, false) in acts then Answer(false, "cancelled", true)
      else Answer(st.responses[k].decision in {"allow_once", "always_allow"}, st.responses[k].decision, false)
    ensures rules.timeout == 0 ==> GiveUp(i, true) !in acts
  {
    ReachableIsInv(rules, file, acts, st, false);
    ReachableGivesUpAsSaid(rules, file, acts, st, i);
    AnsweredChecks(rules, st.checks[i], i, st.responses, k);
    if GiveUp(i, true) in acts {
      OnlyExistingGiveUp(rules, file, acts, st, i, true);
    }
  }

  // No check is ever without a step of its own: it registers, waits until it is
  // told or gives up, applies what it was told or drops its entry.
  lemma {:induction false} NeverStuck(rules: Rules, file: PolicyFile, acts: seq<Action>, st: State, i: nat)
    requires Reaches(rules, file, acts, st, false) && i < |st.checks|
    ensures var c := st.checks[i];
      && (Enabled(rules, st, GiveUp(i, false)) <==> c.phase == Waiting)
      && (Enabled(rules, st, GiveUp(i, true)) <==> c.phase == Waiting && rules.timeout > 0)
      && (Enabled(rules, st, Receive(i)) <==> c.phase == Waiting && |c.answers| == 1)
      && (!c.phase.Done? ==> Enabled(rules, st, Register(i)) || Enabled(rules, st, GiveUp(i, false))
                             || Enabled(rules, st, Apply(i)) || Enabled(rules, st, Forget(i)))
  {
    ReachableIsInv(rules, file, acts, st, false);
    if st.checks[i].phase == Waiting {
      WaitingIsUntold(rules, st.checks[i], i, st.responses);
    }
  }

  lemma AnsweredChecks(rules: Rules, c: Check, i: nat, responses: seq<Response>, k: nat)
    requires CheckOk(rules, c, i, responses) && c.answers == [k] && c.phase.Done?
    ensures k < |responses|
    ensures c.phase.answer in {GaveUp(LeaveReason(true)), GaveUp(LeaveReason(false)), FromUser(responses[k].decision)}
  {
    assert c.answers[0] in c.answers;
  }

  // Both can happen: a Respond returns true, and then the timer or a cancellation
  // still comes first. The decision is dropped and nothing is remembered.
  lemma TrueMayBeOvertaken(rules: Rules, st: State, loaded: map<string, string>, i: nat, d: string, timedOut: bool)
    requires Inv(rules, st, loaded) && i < |st.checks| && (timedOut ==> rules.timeout > 0)
    requires st.checks[i].phase == Waiting && st.checks[i].id in st.pending && st.pending[st.checks[i].id] == i
    ensures Enabled(rules, st, Respond(st.checks[i].id, d))
    ensures var st1 := Next(rules, st, Respond(st.checks[i].id, d));
      && st1.responses[|st.responses|].to == Some(i)
      && Enabled(rules, st1, GiveUp(i, timedOut))
      && var st2 := Next(rules, st1, GiveUp(i, timedOut));
         && Enabled(rules, st2, Forget(i))
         && var st3 := Next(rules, st2, Forget(i));
            st3.checks[i].phase == Done(GaveUp(LeaveReason(timedOut))) && st3.caches == st.caches && st3.log == st.log
  {
    RespondNeverBlocks(rules, st, loaded, st.checks[i].id);
  }

  // Why ids must differ: of two checks under one id, the first to give up takes
  // the other's entry with it, and no Respond can reach the second any more.
  lemma ClashingIdsStrand(rules: Rules, file: PolicyFile, id: string, session: string, tool: string, command: string, d: string)
    requires Decide(rules, Caches(map[], Loaded(rules, file)), session, tool, command).None?
    ensures var st0 := Init(rules, file);
      var st1 := Next(rules, Next(rules, st0, Begin(id, session, tool, command)), Begin(id, session, tool, command));
      && Enabled(rules, st1, Register(0)) && Enabled(rules, Next(rules, st1, Register(0)), Register(1))
      && var st2 := Next(rules, Next(rules, st1, Register(0)), Register(1));
      && Enabled(rules, st2, GiveUp(0, false)) && Enabled(rules, Next(rules, st2, GiveUp(0, false)), Forget(0))
      && var st3 := Next(rules, Next(rules, st2, GiveUp(0, false)), Forget(0));
      && st3.checks[1].phase == Waiting && st3.checks[1].channel == []
      && Enabled(rules, st3, Respond(id, d))
      && Next(rules, st3, Respond(id, d)).responses[0].to == None
      && Next(rules, st3, Respond(id, d)).checks == st3.checks
  {
    var c := NewCheck(rules, Caches(map[], Loaded(rules, file)), id, session, tool, command);
    assert c.phase == Deciding;
  }
}
