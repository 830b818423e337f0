// Tool calls under the permission manager: the invoker (internal/tools/invoker.go)
// acts on what CheckAndWait (internal/permissions/manager.go) answered to it.
module GuardedTools {
  import opened Basics
  import Permissions
  import Tools = ToolInvoker

  // What the invoker is told about its check.
  function VerdictOf(c: Permissions.Check): Tools.Verdict
    requires c.phase.Done?
  {
    var a := c.phase.answer;
    Tools.Verdict(c.answers != [] || a.gaveUp, a.allowed, a.reason, a.gaveUp)
  }

  function CommandParam(call: Tools.Call): Option<string> {
    if "command" in call.params then call.params["command"] else None
  }

  // The check belongs to this call and has answered it.
  ghost predicate AnsweredBy(call: Tools.Call, c: Permissions.Check) {
    && c.id == call.id && c.tool == call.name
    && c.command == Permissions.CommandOf(call.name, CommandParam(call))
    && c.phase.Done? && call.verdict == VerdictOf(c)
  }

  ghost predicate ApprovedByUser(st: Permissions.State, i: nat, id: string) {
    exists k | 0 <= k < |st.responses| ::
      && st.responses[k].to == Some(i) && st.responses[k].id == id
      && st.responses[k].decision in {"allow_once", "always_allow"}
  }

  // Whatever else runs beside it and whatever was cached before: a body that runs
  // at all has all its required parameters, hits no deny pattern, and, if its
  // command looks outside the working directory, was approved by a response to
  // this very call.
  lemma {:induction false} BodyNeedsOwnApproval(
      rules: Permissions.Rules, file: Permissions.PolicyFile, acts: seq<Permissions.Action>, st: Permissions.State,
      i: nat, registry: map<string, Tools.Tool>, call: Tools.Call)
    requires Permissions.Reaches(rules, file, acts, st, false) && i < |st.checks|
    requires AnsweredBy(call, st.checks[i])
    requires Tools.OutcomeOf(registry, call).bodies > 0
    ensures call.name in registry
    ensures forall r | r in registry[call.name].required :: r in call.params && call.params[r].Some?
    ensures !Permissions.DenyHit(rules, call.name, st.checks[i].command)
    ensures st.checks[i].command != "" && rules.outside(st.checks[i].command) ==> ApprovedByUser(st, i, call.id)
    ensures st.checks[i].command == if call.name == "bash" && "command" in call.params && call.params["command"].Some?
                                    then call.params["command"].value else ""
  {
    Tools.BodyOnlyIfAllowed(registry, call);
    Permissions.OverridesOnlyByOwnResponse(rules, file, acts, st, i);
  }
}
