// The permission manager's objects (internal/permissions/manager.go). Every method
// is one atomic step of one goroutine and is proved to be the corresponding action
// of Permissions; a channel send demands room, so the proofs also show that no
// send under the lock can block.
module PermissionManager {
  import opened Basics
  import opened Permissions

  // Patterns are compiled on first use and kept; an invalid one is kept as a
  // matcher that matches nothing.
  class PatternCache {
    const rules: Rules
    var compiled: map<string, string -> bool>

    constructor (rules: Rules)
      ensures Valid() && this.rules == rules
    {
      this.rules := rules;
      compiled := map[];
    }

    ghost predicate Valid()
      reads this
    {
      forall p, command: string | p in compiled :: compiled[p](command) <==> Matches(rules, p, command)
    }

    method MatchPattern(pattern: string, command: string) returns (hit: bool)
      requires Valid()
      modifies this
      ensures Valid() && hit == Matches(rules, pattern, command)
    {
      if pattern !in compiled {
        var re := rules.compile(pattern);
        var matcher := if re.Some? then re.value else (s: string) => false;
        compiled := compiled[pattern := matcher];
      }
      hit := compiled[pattern](command);
    }

    method AnyMatches(patterns: seq<string>, command: string) returns (hit: bool)
      requires Valid()
      modifies this
      ensures Valid() && hit == AnyMatch(rules, patterns, command)
    {
      var k := 0;
      while k < |patterns|
        invariant 0 <= k <= |patterns| && Valid()
        invariant forall j | 0 <= j < k :: !Matches(rules, patterns[j], command)
      {
        hit := MatchPattern(patterns[k], command);
        if hit {
          return;
        }
        k := k + 1;
      }
      hit := false;
    }
  }

  // One CheckAndWait call: its arguments, its channel and how far it has come.
  class Wait {
    const id: string
    const session: string
    const tool: string
    const command: string
    var phase: Phase
    var channel: seq<string>
    ghost const index: nat           // position among all calls ever made
    ghost const seen: Caches
    ghost var answers: seq<nat>

    constructor (id: string, session: string, tool: string, command: string, phase: Phase, ghost seen: Caches, ghost index: nat)
      ensures View() == Check(id, session, tool, command, phase, [], seen, [])
      ensures this.index == index
    {
      this.id, this.session, this.tool, this.command := id, session, tool, command;
      this.phase, channel, this.seen, this.index, answers := phase, [], seen, index, [];
    }

    ghost function View(): Check
      reads this
    {
      Check(id, session, tool, command, phase, channel, seen, answers)
    }
  }

  class Manager {
    const rules: Rules
    const patterns: PatternCache
    var pending: map<string, Wait>
    var sessionAlways: map<string, string>
    var persistentAlways: map<string, string>
    var file: PolicyFile
    ghost const loaded: map<string, string>
    ghost var all: seq<Wait>
    ghost var responses: seq<Response>
    ghost var log: seq<Applied>

    constructor (rules: Rules, file: PolicyFile)
      ensures Valid() && View() == Init(rules, file) && this.rules == rules && fresh(patterns)
    {
      this.rules := rules;
      patterns := new PatternCache(rules);
      pending, sessionAlways, persistentAlways := map[], map[], map[];
      this.file, loaded := file, Loaded(rules, file);
      all, responses, log := [], [], [];
      new;
      if rules.hasFile {
        LoadPolicyFile();
      }
      LoadIsValid(file);
    }

    ghost predicate Linked()
      reads this, patterns, all
    {
      && patterns.rules == rules && patterns.Valid()
      && (forall i | 0 <= i < |all| :: all[i].index == i)
      && (forall id | id in pending :: pending[id] in all)
    }

    ghost function View(): State
      reads this, all
    {
      State(seq(|all|, i requires 0 <= i < |all| reads this, all => all[i].View()),
            map id | id in pending :: pending[id].index,
            Caches(sessionAlways, persistentAlways),
            file, responses, log)
    }

    ghost predicate Valid()
      reads this, patterns, all
    {
      Linked() && Inv(rules, View(), loaded)
    }

    // The view after a step that touched one call only.
    twostate lemma OneChanged(i: nat)
      requires old(Linked()) && i < |all| && all == old(all)
      requires forall j | 0 <= j < |all| && j != i :: unchanged(all[j])
      ensures View().checks == old(View()).checks[i := all[i].View()]
    {
    }

    // The entries of [always] first, then the older flat keys where none is set.
    method LoadPolicyFile()
      requires persistentAlways == map[]
      modifies this`persistentAlways
      ensures persistentAlways == Load(file)
    {
      if !file.Parsed? {
        return;
      }
      var always := file.always;
      var todo := always.Keys;
      while todo != {}
        invariant todo <= always.Keys
        invariant persistentAlways == map t | t in always.Keys - todo && ValidDecision(always[t]) :: always[t]
        decreases todo
      {
        var t :| t in todo;
        if ValidDecision(always[t]) {
          persistentAlways := persistentAlways[t := always[t]];
        }
        todo := todo - {t};
      }
      if file.flat.Some? {
        LoadLegacyKeys(file.flat.value);
      }
    }

    method LoadLegacyKeys(flat: map<string, string>)
      requires file.Parsed? && file.flat == Some(flat)
      requires persistentAlways == map t | t in file.always && ValidDecision(file.always[t]) :: file.always[t]
      modifies this`persistentAlways
      ensures persistentAlways == Load(file)
    {
      ghost var first := persistentAlways;
      var todo := flat.Keys;
      while todo != {}
        invariant todo <= flat.Keys
        invariant forall t :: t in persistentAlways <==> t in first || (t in flat.Keys - todo && ValidDecision(flat[t]))
        invariant forall t | t in persistentAlways :: persistentAlways[t] == if t in first then first[t] else flat[t]
        decreases todo
      {
        var t :| t in todo;
        if ValidDecision(flat[t]) && t !in persistentAlways {
          persistentAlways := persistentAlways[t := flat[t]];
        }
        todo := todo - {t};
      }
    }

    // Phases 1 to 5.
    method DecideNow(session: string, tool: string, command: string) returns (answer: Option<Answer>)
      requires Linked()
      modifies patterns
      ensures Linked() && answer == Decide(rules, Caches(sessionAlways, persistentAlways), session, tool, command)
    {
      var policy := PolicyFor(rules, tool);
      var denied := patterns.AnyMatches(policy.denyPatterns, command);
      if denied {
        return Some(Answer(false, "auto_deny", false));
      }
      var forceAsk := false;
      if command != "" && rules.outside(command) {
        forceAsk := true;
      }
      if !forceAsk {
        var key := session + "::" + tool;
        if key in sessionAlways {
          return Some(Answer(sessionAlways[key] == "allow", "auto_" + sessionAlways[key], false));
        }
        if tool in persistentAlways {
          return Some(Answer(persistentAlways[tool] == "allow", "auto_" + persistentAlways[tool], false));
        }
        var allowed := patterns.AnyMatches(policy.allowPatterns, command);
        if allowed {
          return Some(Answer(true, "auto_allow", false));
        }
        match policy.default {
          case Allow => return Some(Answer(true, "auto_allow", false));
          case Deny => return Some(Answer(false, "auto_deny", false));
          case Ask =>
        }
      }
      return None;
    }

    // CheckAndWait up to the decision whether to ask.
    method BeginCheck(id: string, session: string, tool: string, argument: Option<string>) returns (wait: Wait)
      requires Valid()
      modifies this`all, patterns
      ensures Valid() && fresh(wait) && all == old(all) + [wait]
      ensures View() == Next(rules, old(View()), Begin(id, session, tool,
                          if tool == "bash" && argument.Some? then argument.value else ""))
    {
      ghost var st := View();
      var command := CommandOf(tool, argument);
      var answer := DecideNow(session, tool, command);
      assert View() == st;
      var phase := match answer case Some(a) => Done(a) case None => Deciding;
      wait := new Wait(id, session, tool, command, phase, Caches(sessionAlways, persistentAlways), |all|);
      assert View() == st;
      Add(wait);
      NextKeepsInv(rules, st, loaded, Begin(id, session, tool, command));
    }

    ghost method Add(wait: Wait)
      requires Linked() && wait.index == |all|
      modifies this`all
      ensures Linked() && all == old(all) + [wait]
      ensures View() == old(View()).(checks := old(View()).checks + [wait.View()])
    {
      all := all + [wait];
      assert View().checks == old(View()).checks + [wait.View()];
    }

    // Steps on the heap, each with its effect on the view.

    method SetPhase(wait: Wait, phase: Phase)
      requires Linked() && wait in all
      modifies wait`phase
      ensures Linked()
      ensures View() == old(View()).(checks := old(View()).checks[wait.index := old(wait.View()).(phase := phase)])
    {
      wait.phase := phase;
      OneChanged(wait.index);
    }

    method AddEntry(wait: Wait)
      requires Linked() && wait in all
      modifies this`pending
      ensures Linked()
      ensures View() == old(View()).(pending := old(View()).pending[wait.id := wait.index])
    {
      pending := pending[wait.id := wait];
      assert View().checks == old(View()).checks;
    }

    method DropEntry(id: string)
      requires Linked()
      modifies this`pending
      ensures Linked()
      ensures View() == old(View()).(pending := old(View()).pending - {id})
    {
      pending := pending - {id};
      assert View().checks == old(View()).checks;
    }

    method SendTo(wait: Wait, decision: string)
      requires Linked() && wait in all && wait.channel == []
      modifies this`responses, wait`channel, wait`answers
      ensures Linked()
      ensures View() == old(View()).(
        checks := old(View()).checks[wait.index := Told(old(wait.View()), decision, |old(responses)|)],
        responses := old(responses) + [Response(wait.id, decision, Some(wait.index))])
    {
      wait.channel := wait.channel + [decision];
      wait.answers := wait.answers + [|responses|];
      responses := responses + [Response(wait.id, decision, Some(wait.index))];
      OneChanged(wait.index);
    }

    // Registering before the question is published: an answer may come at once.
    method RegisterPending(wait: Wait)
      requires Valid() && wait in all && wait.phase == Deciding
      modifies this`pending, wait
      ensures Valid() && View() == Next(rules, old(View()), Register(wait.index))
    {
      ghost var st := View();
      assert st.checks[wait.index] == wait.View();
      AddEntry(wait);
      SetPhase(wait, Waiting);
      NextKeepsInv(rules, st, loaded, Register(wait.index));
    }

    method Respond(id: string, decision: string) returns (ok: bool)
      requires Valid()
      modifies this`pending, this`responses, all
      ensures Valid() && ok == (id in old(pending))
      ensures Enabled(rules, old(View()), Action.Respond(id, decision))
      ensures View() == Next(rules, old(View()), Action.Respond(id, decision))
    {
      ghost var st := View();
      RespondKeepsInv(rules, st, loaded, id, decision);
      ok := id in pending;
      if ok {
        EntryIsReady(id);
        SendTo(pending[id], decision);
        DropEntry(id);
      } else {
        responses := responses + [Response(id, decision, None)];
        assert View().checks == st.checks;
      }
    }

    // What the invariant says about a pending entry.
    lemma EntryIsReady(id: string)
      requires Valid() && id in pending
      ensures pending[id].channel == [] && pending[id].id == id
      ensures View().checks[pending[id].index] == pending[id].View()
    {
      assert id in View().pending;
      RespondNeverBlocks(rules, View(), loaded, id);
    }

    // The select's case that receives the decision.
    method ReceiveDecision(wait: Wait)
      requires Valid() && wait in all && wait.phase == Waiting && wait.channel != []
      modifies wait
      ensures Valid() && View() == Next(rules, old(View()), Receive(wait.index))
    {
      ghost var st := View();
      assert st.checks[wait.index] == wait.View();
      wait.phase := Applying(wait.channel[0]);
      wait.channel := wait.channel[1..];
      OneChanged(wait.index);
      NextKeepsInv(rules, st, loaded, Receive(wait.index));
    }

    method ApplyResponse(wait: Wait) returns (answer: Answer)
      requires Valid() && wait in all && wait.phase.Applying?
      modifies this`sessionAlways, this`persistentAlways, this`file, this`log, wait
      ensures Valid() && answer == Answer(old(wait.phase.decision) in {"allow_once", "always_allow"}, old(wait.phase.decision), false)
      ensures View() == Next(rules, old(View()), Apply(wait.index))
    {
      ghost var st := View();
      assert st.checks[wait.index] == wait.View();
      var decision := wait.phase.decision;
      var allow := decision == "allow_once" || decision == "always_allow";
      RememberDecision(wait.session, wait.tool, decision, wait.index);
      answer := Answer(allow, decision, false);
      SetPhase(wait, Done(answer));
      NextKeepsInv(rules, st, loaded, Apply(wait.index));
    }

    method RememberDecision(session: string, tool: string, decision: string, ghost check: nat)
      requires Linked()
      modifies this`sessionAlways, this`persistentAlways, this`file, this`log
      ensures Linked()
      ensures var caches := Remember(old(View()).caches, Applied(session, tool, decision, check));
        View() == old(View()).(
          caches := caches,
          file := if IsAlways(decision) && rules.hasFile then Saved(caches.persistent) else old(file),
          log := old(log) + [Applied(session, tool, decision, check)])
    {
      var key := session + "::" + tool;
      if decision == "always_allow" {
        sessionAlways := sessionAlways[key := "allow"];
        persistentAlways := persistentAlways[tool := "allow"];
        SavePolicyFile();
      } else if decision == "always_deny" {
        sessionAlways := sessionAlways[key := "deny"];
        persistentAlways := persistentAlways[tool := "deny"];
        SavePolicyFile();
      }
      log := log + [Applied(session, tool, decision, check)];
      assert View().checks == old(View()).checks;
    }

    method SavePolicyFile()
      modifies this`file
      ensures file == if rules.hasFile then Saved(persistentAlways) else old(file)
    {
      if rules.hasFile {
        file := Parsed(persistentAlways, None);
      }
    }

    // The select's cancellation and timer cases ...
    method StopWaiting(wait: Wait, timedOut: bool)
      requires Valid() && wait in all && wait.phase == Waiting && (timedOut ==> rules.timeout > 0)
      modifies wait
      ensures Valid() && View() == Next(rules, old(View()), GiveUp(wait.index, timedOut))
    {
      ghost var st := View();
      assert st.checks[wait.index] == wait.View();
      SetPhase(wait, Leaving(if timedOut then "timeout" else "cancelled"));
      NextKeepsInv(rules, st, loaded, GiveUp(wait.index, timedOut));
    }

    // ... which then drop the entry under the lock.
    method DropPending(wait: Wait) returns (answer: Answer)
      requires Valid() && wait in all && wait.phase.Leaving?
      modifies this`pending, wait
      ensures Valid() && answer == Answer(false, old(wait.phase.reason), true)
      ensures View() == Next(rules, old(View()), Forget(wait.index))
    {
      ghost var st := View();
      assert st.checks[wait.index] == wait.View();
      DropEntry(wait.id);
      answer := Answer(false, wait.phase.reason, true);
      SetPhase(wait, Done(answer));
      NextKeepsInv(rules, st, loaded, Forget(wait.index));
    }
  }
}
