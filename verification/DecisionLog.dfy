// What the permission manager remembers (internal/permissions/manager.go): its two
// caches and its policy file against the log of the decisions applied.
module DecisionLog {
  import opened Basics
  import opened Permissions

  // ---- The caches are the decision log ---------------------------------------------------------

  // The last always_* decision in the log for a session and tool, for a tool.
  function LastIn(log: seq<Applied>, session: string, tool: string): Option<string> {
    if log == [] then None
    else
      var e := log[|log| - 1];
      if IsAlways(e.decision) && e.session == session && e.tool == tool then Some(Verdict(e.decision))
      else LastIn(log[..|log| - 1], session, tool)
  }

  function LastFor(log: seq<Applied>, tool: string): Option<string> {
    if log == [] then None
    else
      var e := log[|log| - 1];
      if IsAlways(e.decision) && e.tool == tool then Some(Verdict(e.decision))
      else LastFor(log[..|log| - 1], tool)
  }

  // What a lookup should answer: the last always_* decision of that session for
  // that tool, else the last for the tool in any session, else the loaded policy.
  function LastDecision(loaded: map<string, string>, log: seq<Applied>, session: string, tool: string): Option<string> {
    if LastIn(log, session, tool).Some? then LastIn(log, session, tool)
    else if LastFor(log, tool).Some? then LastFor(log, tool)
    else if tool in loaded then Some(loaded[tool])
    else None
  }

  // Two sessions' keys can meet exactly if one id and the separator begin the
  // other id and the separator.
  predicate MayMeet(s: string, t: string) {
    s + "::" <= t + "::" || t + "::" <= s + "::"
  }

  lemma KeysMeetIff(s: string, t: string)
    requires s != t
    ensures (exists x, y :: Key(s, x) == Key(t, y)) <==> MayMeet(s, t)
  {
    if x, y :| Key(s, x) == Key(t, y) {
      KeyBegins(s, x, t, y);
    }
    if s + "::" <= t + "::" {
      KeysMeet(s, t);
    }
    if t + "::" <= s + "::" {
      KeysMeet(t, s);
    }
  }

  lemma KeyBegins(s: string, x: string, t: string, y: string)
    requires Key(s, x) == Key(t, y)
    ensures MayMeet(s, t) && (s == t ==> x == y) && (x == y ==> s == t)
  {
    var k := Key(s, x);
    assert k[..|s| + 2] == s + "::" && k[..|t| + 2] == t + "::";
    if |s| <= |t| {
      assert (t + "::")[..|s| + 2] == k[..|s| + 2];
    } else {
      assert (s + "::")[..|t| + 2] == k[..|t| + 2];
    }
    assert k[|s| + 2..] == x && k[|t| + 2..] == y && k[..|s|] == s && k[..|t|] == t;
  }

  lemma KeysMeet(s: string, t: string)
    requires s + "::" <= t + "::"
    ensures Key(s, (t + "::")[|s| + 2..]) == Key(t, "")
  {
    assert t + "::" == s + "::" + (t + "::")[|s| + 2..];
  }

  predicate SessionsApart(sessions: set<string>) {
    forall s, t | s in sessions && t in sessions && s != t :: !MayMeet(s, t)
  }

  function SessionsOf(log: seq<Applied>): set<string> {
    set k | 0 <= k < |log| :: log[k].session
  }

  lemma {:induction false} CachesAreLast(loaded: map<string, string>, log: seq<Applied>, session: string, tool: string)
    requires SessionsApart(SessionsOf(log) + {session})
    ensures var c := CachesAfter(loaded, log);
      && (if Key(session, tool) in c.session then Some(c.session[Key(session, tool)]) else None) == LastIn(log, session, tool)
      && (if tool in c.persistent then Some(c.persistent[tool]) else None)
         == (if LastFor(log, tool).Some? then LastFor(log, tool)
             else if tool in loaded then Some(loaded[tool]) else None)
  {
    if log != [] {
      var e, rest := log[|log| - 1], log[..|log| - 1];
      assert e.session in SessionsOf(log);
      FewerSessions(log);
      CachesAreLast(loaded, rest, session, tool);
      if Key(e.session, e.tool) == Key(session, tool) {
        KeyBegins(e.session, e.tool, session, tool);
      }
    }
  }

  lemma FewerSessions(log: seq<Applied>)
    requires log != []
    ensures SessionsOf(log[..|log| - 1]) <= SessionsOf(log)
  {
    var rest := log[..|log| - 1];
    forall s | s in SessionsOf(rest) ensures s in SessionsOf(log) {
      var k :| 0 <= k < |rest| && rest[k].session == s;
      assert log[k].session == s;
    }
  }

  // In every reachable state, for sessions whose keys cannot meet, a lookup
  // answers with the decision log.
  lemma {:induction false} LookupIsDecisionLog(rules: Rules, file: PolicyFile, acts: seq<Action>, st: State,
                                               session: string, tool: string)
    requires Reaches(rules, file, acts, st, false)
    requires SessionsApart(SessionsOf(st.log) + {session})
    ensures Lookup(st.caches, session, tool) == LastDecision(Loaded(rules, file), st.log, session, tool)
  {
    ReachableIsInv(rules, file, acts, st, false);
    CachesAreLast(Loaded(rules, file), st.log, session, tool);
  }

  // That condition on the sessions in use is exactly what it takes.
  lemma CachesAgreeIff(sessions: set<string>)
    ensures SessionsApart(sessions) <==>
      forall loaded, log, s, tool | SessionsOf(log) <= sessions && s in sessions ::
        Lookup(CachesAfter(loaded, log), s, tool) == LastDecision(loaded, log, s, tool)
  {
    if SessionsApart(sessions) {
      forall loaded, log, s, tool | SessionsOf(log) <= sessions && s in sessions
        ensures Lookup(CachesAfter(loaded, log), s, tool) == LastDecision(loaded, log, s, tool)
      {
        assert SessionsOf(log) + {s} <= sessions;
        CachesAreLast(loaded, log, s, tool);
      }
    } else {
      var s, t :| s in sessions && t in sessions && s != t && MayMeet(s, t);
      KeysMeetIff(s, t);
      var x, y :| Key(s, x) == Key(t, y);
      KeyBegins(s, x, t, y);
      ClashLeaks(s, x, t, y);
      assert SessionsOf([Applied(s, x, "always_allow", 0)]) == {s};
    }
  }

  // What happens otherwise: one session's decision answers for another.
  lemma ClashLeaks(s: string, x: string, t: string, y: string)
    requires Key(s, x) == Key(t, y) && s != t && x != y
    ensures var log := [Applied(s, x, "always_allow", 0)];
      Lookup(CachesAfter(map[], log), t, y) == Some("allow") && LastDecision(map[], log, t, y) == None
  {
    var log := [Applied(s, x, "always_allow", 0)];
    assert log[..0] == [];
    assert CachesAfter(map[], log[..0]) == Caches(map[], map[]);
    assert LastIn(log[..0], t, y) == None && LastFor(log[..0], y) == None;
  }

  // The ids the program generates, "sess-" and hex digits, and the empty id of a
  // run without a session never meet.
  predicate GeneratedId(s: string) {
    s == "" || ("sess-" <= s && forall k | 5 <= k < |s| :: s[k] in "0123456789abcdef")
  }

  lemma GeneratedIdsApart(sessions: set<string>)
    requires forall s | s in sessions :: GeneratedId(s)
    ensures SessionsApart(sessions)
  {
    forall s, t | s in sessions && t in sessions && s != t ensures !MayMeet(s, t) {
      NoColon(s);
      NoColon(t);
      ColonEndsId(s, t);
      ColonEndsId(t, s);
    }
  }

  lemma NoColon(s: string)
    requires GeneratedId(s)
    ensures ':' !in s
  {
    forall k | 0 <= k < |s| ensures s[k] != ':' {
      if k < 5 {
        assert s[k] == "sess-"[k];
      } else {
        assert ':' !in "0123456789abcdef";
      }
    }
  }

  lemma ColonEndsId(s: string, t: string)
    requires ':' !in s && ':' !in t
    ensures s + "::" <= t + "::" ==> s == t
  {
    var u, v := s + "::", t + "::";
    assert u == s + [':'] + ":" && v == t + [':'] + ":";
    PrefixEndsAtSeparator(s, ':', ":");
    PrefixEndsAtSeparator(t, ':', ":");
  }

  // ---- The decision log --------------------------------------------------------------------------

  // Each entry is the decision of the one response that reached its check, under
  // that check's session and tool; no check has two entries, and every check a
  // user's decision ended has one.
  predicate LogOk(rules: Rules, st: State) {
    EntriesOk(st, st.log) && OncePerCheck(st.log) && AllLogged(rules, st.checks, st.log)
  }

  predicate EntriesOk(st: State, log: seq<Applied>) {
    forall m | 0 <= m < |log| :: EntryOk(st, log[m])
  }

  predicate OncePerCheck(log: seq<Applied>) {
    forall m, n | 0 <= m < n < |log| :: log[m].check != log[n].check
  }

  predicate HasEntry(log: seq<Applied>, i: nat) {
    exists m | 0 <= m < |log| :: log[m].check == i
  }

  predicate AllLogged(rules: Rules, checks: seq<Check>, log: seq<Applied>) {
    forall i | 0 <= i < |checks| && EndedByUser(rules, checks[i]) :: HasEntry(log, i)
  }

  predicate EntryOk(st: State, e: Applied) {
    && e.check < |st.checks|
    && var c := st.checks[e.check];
       && c.session == e.session && c.tool == e.tool && c.phase == Done(FromUser(e.decision))
       && Decision(c, st.responses) == Some(e.decision)
  }

  predicate EndedByUser(rules: Rules, c: Check) {
    c.phase.Done? && !c.phase.answer.gaveUp && Decide(rules, c.seen, c.session, c.tool, c.command).None?
  }

  lemma StepKeepsEntry(rules: Rules, st: State, loaded: map<string, string>, a: Action, e: Applied)
    requires Inv(rules, st, loaded) && Enabled(rules, st, a) && EntryOk(st, e)
    ensures EntryOk(Next(rules, st, a), e)
  {
    DoneIsFinal(rules, st, loaded, a, e.check);
  }

  lemma StepEndsByUser(rules: Rules, st: State, a: Action, i: nat)
    requires Enabled(rules, st, a) && i < |Next(rules, st, a).checks| && EndedByUser(rules, Next(rules, st, a).checks[i])
    ensures i < |st.checks| && (a == Apply(i) || EndedByUser(rules, st.checks[i]))
  {
  }

  lemma StepKeepsEntries(rules: Rules, st: State, loaded: map<string, string>, a: Action)
    requires Inv(rules, st, loaded) && Enabled(rules, st, a) && EntriesOk(st, st.log)
    ensures EntriesOk(Next(rules, st, a), st.log)
  {
    forall m | 0 <= m < |st.log| ensures EntryOk(Next(rules, st, a), st.log[m]) {
      StepKeepsEntry(rules, st, loaded, a, st.log[m]);
    }
  }

  // A check applies its decision when it is not done yet, so for the first time.
  lemma ApplyIsFirst(rules: Rules, st: State, i: nat)
    requires Enabled(rules, st, Apply(i)) && EntriesOk(st, st.log)
    ensures !HasEntry(st.log, i)
  {
    forall m | 0 <= m < |st.log| ensures st.log[m].check != i {
      assert EntryOk(st, st.log[m]);
    }
  }

  lemma ApplyAddsEntry(rules: Rules, st: State, i: nat)
    requires Enabled(rules, st, Apply(i)) && CheckOk(rules, st.checks[i], i, st.responses)
    ensures EntryOk(Next(rules, st, Apply(i)), AppliedBy(st.checks[i], i))
  {
  }

  lemma HasEntrySnoc(log: seq<Applied>, e: Applied, i: nat)
    ensures HasEntry(log + [e], i) <==> HasEntry(log, i) || e.check == i
  {
    if m :| 0 <= m < |log| && log[m].check == i {
      assert (log + [e])[m].check == i;
    }
    assert (log + [e])[|log|] == e;
  }

  lemma StepKeepsLogged(rules: Rules, st: State, a: Action)
    requires Enabled(rules, st, a) && AllLogged(rules, st.checks, st.log)
    ensures AllLogged(rules, Next(rules, st, a).checks, Next(rules, st, a).log)
  {
    var t := Next(rules, st, a);
    forall i | 0 <= i < |t.checks| && EndedByUser(rules, t.checks[i]) ensures HasEntry(t.log, i) {
      StepEndsByUser(rules, st, a, i);
      if a.Apply? {
        HasEntrySnoc(st.log, AppliedBy(st.checks[a.i], a.i), i);
      }
    }
  }

  lemma StepKeepsLog(rules: Rules, st: State, loaded: map<string, string>, a: Action)
    requires Inv(rules, st, loaded) && Enabled(rules, st, a) && LogOk(rules, st)
    ensures LogOk(rules, Next(rules, st, a))
  {
    StepKeepsEntries(rules, st, loaded, a);
    StepKeepsLogged(rules, st, a);
    if a.Apply? {
      assert CheckOk(rules, st.checks[a.i], a.i, st.responses);
      ApplyAddsEntry(rules, st, a.i);
      ApplyIsFirst(rules, st, a.i);
    }
  }

  lemma {:induction false} LogIsUserDecisions(rules: Rules, file: PolicyFile, acts: seq<Action>, st: State)
    requires Reaches(rules, file, acts, st, false)
    ensures LogOk(rules, st)
  {
    if acts != [] {
      var n := |acts| - 1;
      var pre :| Reaches(rules, file, acts[..n], pre, false) && Enabled(rules, pre, acts[n]) && st == Next(rules, pre, acts[n]);
      LogIsUserDecisions(rules, file, acts[..n], pre);
      ReachableIsInv(rules, file, acts[..n], pre, false);
      StepKeepsLog(rules, pre, Loaded(rules, file), acts[n]);
    }
  }

  // ---- What a check is answered when it begins -----------------------------------------------------

  // An always_* decision on that tool, of that session or, with None, of any.
  predicate Speaks(e: Applied, session: Option<string>, tool: string) {
    && (session.Some? ==> e.session == session.value) && e.tool == tool
    && (e.decision == "always_allow" || e.decision == "always_deny")
  }

  predicate SaidLastAt(log: seq<Applied>, session: Option<string>, tool: string, m: nat) {
    m < |log| && Speaks(log[m], session, tool) && forall n | m < n < |log| :: !Speaks(log[n], session, tool)
  }

  // The last of them in the log is d, in the user's own word.
  ghost predicate LastSaid(log: seq<Applied>, session: Option<string>, tool: string, d: string) {
    exists m: nat :: SaidLastAt(log, session, tool, m) && log[m].decision == d
  }

  ghost predicate NothingSaid(log: seq<Applied>, session: Option<string>, tool: string) {
    forall m | 0 <= m < |log| :: !Speaks(log[m], session, tool)
  }

  // The last always_* decision as the caches spell it.
  function LastVerdict(log: seq<Applied>, session: Option<string>, tool: string): Option<string> {
    if session.Some? then LastIn(log, session.value, tool) else LastFor(log, tool)
  }

  lemma LastVerdictSnoc(log: seq<Applied>, session: Option<string>, tool: string)
    requires log != []
    ensures var e := log[|log| - 1];
      LastVerdict(log, session, tool) ==
        if Speaks(e, session, tool) then Some(Verdict(e.decision)) else LastVerdict(log[..|log| - 1], session, tool)
  {
  }

  // What was said last is what is looked up, allow for always_allow.
  lemma {:induction false} LastSaidIs(log: seq<Applied>, session: Option<string>, tool: string) returns (m: nat)
    ensures NothingSaid(log, session, tool) ==> LastVerdict(log, session, tool) == None
    ensures !NothingSaid(log, session, tool) ==>
      && SaidLastAt(log, session, tool, m)
      && LastVerdict(log, session, tool) == Some(if log[m].decision == "always_allow" then "allow" else "deny")
  {
    m := 0;
    if log != [] {
      LastVerdictSnoc(log, session, tool);
      var n := |log| - 1;
      if Speaks(log[n], session, tool) {
        m := n;
      } else {
        m := LastSaidIs(log[..n], session, tool);
      }
    }
  }

  lemma LastSaidDecides(log: seq<Applied>, session: Option<string>, tool: string)
    ensures LastSaid(log, session, tool, "always_allow") ==> LastVerdict(log, session, tool) == Some("allow")
    ensures LastSaid(log, session, tool, "always_deny") ==> LastVerdict(log, session, tool) == Some("deny")
    ensures NothingSaid(log, session, tool) ==> LastVerdict(log, session, tool) == None
  {
    var m := LastSaidIs(log, session, tool);
    forall k: nat | SaidLastAt(log, session, tool, k) ensures k == m {
      assert !NothingSaid(log, session, tool);
    }
    assert "always_allow"[7] != "always_deny"[7];
  }

  // The check is answered with that at once, sent nothing and never asked about.
  predicate AnsweredAtOnce(c: Check, allowed: bool) {
    && c.phase == Done(if allowed then Answer(true, "auto_allow", false) else Answer(false, "auto_deny", false))
    && c.answers == [] && c.channel == []
  }

  // No deny pattern and no outside-cwd command stands in the way of what is remembered.
  predicate MayRemember(rules: Rules, c: Check) {
    !DenyHit(rules, c.tool, c.command) && (c.command == "" || !rules.outside(c.command))
  }

  lemma LookupDecides(rules: Rules, c: Check, i: nat, responses: seq<Response>, allowed: bool)
    requires CheckOk(rules, c, i, responses) && MayRemember(rules, c)
    requires Lookup(c.seen, c.session, c.tool) == Some(if allowed then "allow" else "deny")
    ensures AnsweredAtOnce(c, allowed)
  {
    DecideInOrder(rules, c.seen, c.session, c.tool, c.command);
    assert "auto_" + "allow" == "auto_allow" && "auto_" + "deny" == "auto_deny";
    assert "allow"[0] != "deny"[0];
  }

  // The check was begun by step b, in the state pre.
  ghost predicate BegunAt(rules: Rules, file: PolicyFile, acts: seq<Action>, b: nat, pre: State, c: Check, i: nat) {
    && b < |acts| && acts[b] == Begin(c.id, c.session, c.tool, c.command)
    && Reaches(rules, file, acts[..b], pre, false) && |pre.checks| == i && c.seen == pre.caches
  }

  lemma StepKeepsRequest(rules: Rules, st: State, a: Action, i: nat)
    requires Enabled(rules, st, a) && i < |st.checks|
    ensures i < |Next(rules, st, a).checks|
    ensures var c, d := st.checks[i], Next(rules, st, a).checks[i];
      d.id == c.id && d.session == c.session && d.tool == c.tool && d.command == c.command && d.seen == c.seen
  {
  }

  lemma BeginAsksAsSaid(rules: Rules, st: State, a: Action, i: nat)
    requires Enabled(rules, st, a) && |st.checks| <= i < |Next(rules, st, a).checks|
    ensures i == |st.checks|
    ensures var c := Next(rules, st, a).checks[i]; a == Begin(c.id, c.session, c.tool, c.command) && c.seen == st.caches
  {
  }

  lemma {:induction false} ChecksWereBegun(rules: Rules, file: PolicyFile, acts: seq<Action>, st: State,
                                           i: nat) returns (b: nat, pre: State)
    requires Reaches(rules, file, acts, st, false) && i < |st.checks|
    ensures BegunAt(rules, file, acts, b, pre, st.checks[i], i)
  {
    var n := |acts| - 1;
    var was :| Reaches(rules, file, acts[..n], was, false) && Enabled(rules, was, acts[n]) && st == Next(rules, was, acts[n]);
    if i < |was.checks| {
      b, pre := ChecksWereBegun(rules, file, acts[..n], was, i);
      StepKeepsRequest(rules, was, acts[n], i);
      assert acts[..n][..b] == acts[..b];
    } else {
      b, pre := n, was;
      BeginAsksAsSaid(rules, was, acts[n], i);
    }
  }

  // Main result on what is remembered, for every check of every run that no deny
  // pattern and no outside-cwd command concerns: when it began, the log then held
  // its answer. What its own session last said of the tool with always_allow or
  // always_deny counts first, then what any session last said, then what the
  // policy file said at the start.
  lemma {:induction false} RememberedDecides(rules: Rules, file: PolicyFile, acts: seq<Action>, st: State,
                                             i: nat) returns (b: nat, pre: State)
    requires Reaches(rules, file, acts, st, false) && i < |st.checks| && MayRemember(rules, st.checks[i])
    ensures BegunAt(rules, file, acts, b, pre, st.checks[i], i)
    ensures var c := st.checks[i];
      SessionsApart(SessionsOf(pre.log) + {c.session}) ==>
        && (LastSaid(pre.log, Some(c.session), c.tool, "always_deny") ==> AnsweredAtOnce(c, false))
        && (LastSaid(pre.log, Some(c.session), c.tool, "always_allow") ==> AnsweredAtOnce(c, true))
        && (NothingSaid(pre.log, Some(c.session), c.tool) ==>
              && (LastSaid(pre.log, None, c.tool, "always_deny") ==> AnsweredAtOnce(c, false))
              && (LastSaid(pre.log, None, c.tool, "always_allow") ==> AnsweredAtOnce(c, true))
              && (NothingSaid(pre.log, None, c.tool) && rules.hasFile && c.tool in Load(file) ==>
                    && (Load(file)[c.tool] == "deny" ==> AnsweredAtOnce(c, false))
                    && (Load(file)[c.tool] == "allow" ==> AnsweredAtOnce(c, true))))
  {
    b, pre := ChecksWereBegun(rules, file, acts, st, i);
    var c := st.checks[i];
    ReachableIsInv(rules, file, acts, st, false);
    assert CheckOk(rules, c, i, st.responses);
    if SessionsApart(SessionsOf(pre.log) + {c.session}) {
      LookupIsDecisionLog(rules, file, acts[..b], pre, c.session, c.tool);
      LastSaidDecides(pre.log, Some(c.session), c.tool);
      LastSaidDecides(pre.log, None, c.tool);
      if Lookup(c.seen, c.session, c.tool) == Some("allow") {
        LookupDecides(rules, c, i, st.responses, true);
      } else if Lookup(c.seen, c.session, c.tool) == Some("deny") {
        LookupDecides(rules, c, i, st.responses, false);
      }
    }
  }

  // ... and where nothing is remembered the policy decides: an allow pattern, then
  // the tool's default; otherwise the user's decision is waited for.
  lemma {:induction false} PolicyDecides(rules: Rules, file: PolicyFile, acts: seq<Action>, st: State,
                                         i: nat) returns (b: nat, pre: State)
    requires Reaches(rules, file, acts, st, false) && i < |st.checks| && MayRemember(rules, st.checks[i])
    ensures BegunAt(rules, file, acts, b, pre, st.checks[i], i)
    ensures var c := st.checks[i];
      SessionsApart(SessionsOf(pre.log) + {c.session}) && NothingSaid(pre.log, Some(c.session), c.tool)
      && NothingSaid(pre.log, None, c.tool) && !(rules.hasFile && c.tool in Load(file)) ==>
        var known := c.tool in rules.policies;
        && (known && Hit(rules, rules.policies[c.tool].allowPatterns, c.command) ==> AnsweredAtOnce(c, true))
        && (known && rules.policies[c.tool].default == Allow ==> AnsweredAtOnce(c, true))
        && (known && rules.policies[c.tool].default == Deny && !Hit(rules, rules.policies[c.tool].allowPatterns, c.command) ==>
              AnsweredAtOnce(c, false))
        && (!known || (rules.policies[c.tool].default == Ask && !Hit(rules, rules.policies[c.tool].allowPatterns, c.command)) ==>
              c.phase.Done? ==> c.phase.answer.gaveUp || |c.answers| == 1)
  {
    b, pre := ChecksWereBegun(rules, file, acts, st, i);
    var c := st.checks[i];
    ReachableIsInv(rules, file, acts, st, false);
    assert CheckOk(rules, c, i, st.responses);
    CheckSays(rules, c, i, st.responses);
    if SessionsApart(SessionsOf(pre.log) + {c.session}) {
      LookupIsDecisionLog(rules, file, acts[..b], pre, c.session, c.tool);
      LastSaidDecides(pre.log, Some(c.session), c.tool);
      LastSaidDecides(pre.log, None, c.tool);
      DecideInOrder(rules, c.seen, c.session, c.tool, c.command);
    }
  }

  // A restart loses the session decisions and nothing else: a manager started on
  // the file left behind holds the same persistent decisions.
  lemma {:induction false} RestartKeepsPersistent(rules: Rules, file: PolicyFile, acts: seq<Action>, st: State)
    requires Reaches(rules, file, acts, st, false) && rules.hasFile
    ensures Init(rules, st.file).caches == Caches(map[], st.caches.persistent)
  {
    ReachableIsInv(rules, file, acts, st, false);
  }
}
