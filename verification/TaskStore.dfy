// Tasks and their dependencies (internal/task/manager.go). A task directory is a
// map from id to task; its files are visited in an arbitrary order.
module TaskStore {
  import opened Basics

  datatype Task = Task(
    id: int,
    subject: string,
    description: string,
    status: string,
    blockedBy: seq<int>,
    createdAt: string,
    updatedAt: string)

  datatype Error = DependencyNotFound(id: int) | TaskNotFound(id: int) | InvalidStatus(status: string)

  datatype Result = Ok(task: Task) | Err(error: Error)

  type Files = map<int, Task>

  datatype State = State(files: Files, nextID: int)

  predicate ValidStatus(s: string) {
    s == "pending" || s == "in_progress" || s == "completed"
  }

  // ---- Lists of dependencies ----------------------------------------------------------

  // Appends what is not there yet, in order.
  function AppendNew<T(==)>(merged: seq<T>, ids: seq<T>): seq<T>
    decreases |ids|
  {
    if ids == [] then merged
    else AppendNew(if ids[0] in merged then merged else merged + [ids[0]], ids[1..])
  }

  function Without<T(==)>(ids: seq<T>, remove: set<T>): seq<T> {
    if ids == [] then []
    else Without(ids[..|ids| - 1], remove) + (if ids[|ids| - 1] in remove then [] else [ids[|ids| - 1]])
  }

  predicate NoDuplicates<T(==)>(ids: seq<T>) {
    forall i, j | 0 <= i < j < |ids| :: ids[i] != ids[j]
  }

  lemma {:induction false} AppendNewElements<T>(merged: seq<T>, ids: seq<T>)
    ensures forall x :: x in AppendNew(merged, ids) <==> x in merged || x in ids
    ensures merged <= AppendNew(merged, ids)
    ensures NoDuplicates(merged) ==> NoDuplicates(AppendNew(merged, ids))
    decreases |ids|
  {
    if ids != [] {
      var more := if ids[0] in merged then merged else merged + [ids[0]];
      AppendNewElements(more, ids[1..]);
      assert ids == [ids[0]] + ids[1..];
    }
  }

  lemma {:induction false} WithoutElements<T>(ids: seq<T>, remove: set<T>)
    ensures forall x :: x in Without(ids, remove) <==> x in ids && x !in remove
  {
    if ids != [] {
      WithoutElements(ids[..|ids| - 1], remove);
      assert ids == ids[..|ids| - 1] + [ids[|ids| - 1]];
    }
  }

  lemma {:induction false} WithoutKeepsDistinct<T>(ids: seq<T>, remove: set<T>)
    requires NoDuplicates(ids)
    ensures NoDuplicates(Without(ids, remove))
  {
    if ids != [] {
      var rest, last := ids[..|ids| - 1], ids[|ids| - 1];
      WithoutKeepsDistinct(rest, remove);
      WithoutElements(rest, remove);
      forall i | 0 <= i < |rest| ensures rest[i] != last {
        assert ids[i] != ids[|ids| - 1];
      }
      assert last !in Without(rest, remove);
    }
  }

  // The dependency list after an update; it is rewritten only where asked.
  function Rewritten<T(==)>(blockedBy: seq<T>, add: seq<T>, remove: seq<T>): seq<T> {
    var merged := if add == [] then blockedBy else AppendNew(AppendNew([], blockedBy), add);
    if remove == [] then merged else Without(merged, ToSet(remove))
  }

  // Any update leaves (old + add) - remove, and no duplicates once it added.
  lemma RewrittenElements<T>(blockedBy: seq<T>, add: seq<T>, remove: seq<T>)
    ensures forall x :: x in Rewritten(blockedBy, add, remove) <==> (x in blockedBy || x in add) && x !in remove
    ensures add != [] || NoDuplicates(blockedBy) ==> NoDuplicates(Rewritten(blockedBy, add, remove))
  {
    AppendNewElements([], blockedBy);
    AppendNewElements(AppendNew([], blockedBy), add);
    var merged := if add == [] then blockedBy else AppendNew(AppendNew([], blockedBy), add);
    WithoutElements(merged, ToSet(remove));
    if NoDuplicates(merged) {
      WithoutKeepsDistinct(merged, ToSet(remove));
    }
    assert forall x :: x in merged <==> x in blockedBy || x in add;
  }

  // Both keep the order: ids stay where they are, new ones come at the end.
  lemma {:induction false} AppendNewInOrder<T>(merged: seq<T>, ids: seq<T>, x: T)
    ensures AppendNew(merged, []) == merged
    ensures AppendNew(merged, ids + [x]) ==
      if x in merged || x in ids then AppendNew(merged, ids) else AppendNew(merged, ids) + [x]
    decreases |ids|
  {
    if ids == [] {
      assert ids + [x] == [x] && [x][1..] == [];
    } else {
      assert (ids + [x])[1..] == ids[1..] + [x];
      AppendNewInOrder(if ids[0] in merged then merged else merged + [ids[0]], ids[1..], x);
      assert x in ids <==> x == ids[0] || x in ids[1..];
    }
  }

  lemma WithoutInOrder<T>(ids: seq<T>, x: T, remove: set<T>)
    ensures Without([], remove) == []
    ensures Without(ids + [x], remove) == if x in remove then Without(ids, remove) else Without(ids, remove) + [x]
  {
    assert (ids + [x])[..|ids|] == ids;
  }

  // ---- Operations --------------------------------------------------------------------------

  datatype Op =
    | Create(subject: string, description: string, blockedBy: seq<int>)
    | Update(id: int, status: string, add: seq<int>, remove: seq<int>)
    | Reopen                       // a new manager on the same directory

  function FirstMissing(files: Files, ids: seq<int>): Option<int> {
    if ids == [] then None
    else if ids[0] !in files then Some(ids[0])
    else FirstMissing(files, ids[1..])
  }

  ghost predicate IsMaxID(files: Files, n: int) {
    && n >= 0 && (n == 0 || n in files)
    && forall id | id in files :: id <= n
  }

  // One other task's file when `done` completes.
  function Cleared(t: Task, done: int, now: string): Task {
    if done in t.blockedBy then t.(blockedBy := Without(t.blockedBy, {done}), updatedAt := now) else t
  }

  function ClearedAll(files: Files, done: int, now: string): Files {
    map id | id in files :: Cleared(files[id], done, now)
  }

  function Created(st: State, op: Op, now: string): (State, Result)
    requires op.Create?
  {
    match FirstMissing(st.files, op.blockedBy)
    case Some(dep) => (st, Err(DependencyNotFound(dep)))
    case None =>
      var t := Task(st.nextID, op.subject, op.description, "pending", op.blockedBy, now, now);
      (State(st.files[st.nextID := t], st.nextID + 1), Ok(t))
  }

  // A task is loaded first and saved last: what clearing did to its own file
  // is overwritten.
  function Updated(st: State, op: Op, now: string): (State, Result)
    requires op.Update?
  {
    if op.id !in st.files then (st, Err(TaskNotFound(op.id)))
    else if op.status != "" && !ValidStatus(op.status) then (st, Err(InvalidStatus(op.status)))
    else
      var loaded := st.files[op.id];
      var t := loaded.(status := if op.status != "" then op.status else loaded.status,
                       blockedBy := Rewritten(loaded.blockedBy, op.add, op.remove),
                       updatedAt := now);
      var files := if op.status == "completed" then ClearedAll(st.files, op.id, now) else st.files;
      (st.(files := files[t.id := t]), Ok(t))
  }

  // ---- What a caller is told and what is saved ------------------------------------------

  // A creation is refused for the first dependency that does not exist, and then
  // changes nothing; otherwise a pending task is saved under the next id, as
  // described, and nothing else.
  lemma {:induction false} CreateSays(st: State, op: Op, now: string, i: nat)
    requires op.Create?
    requires i <= |op.blockedBy| && forall j | 0 <= j < i :: op.blockedBy[j] in st.files
    requires i < |op.blockedBy| ==> op.blockedBy[i] !in st.files
    ensures i < |op.blockedBy| ==> Created(st, op, now) == (st, Err(DependencyNotFound(op.blockedBy[i])))
    ensures i == |op.blockedBy| ==>
      var (t, r) := Created(st, op, now);
      && r == Ok(Task(st.nextID, op.subject, op.description, "pending", op.blockedBy, now, now))
      && t.nextID == st.nextID + 1 && t.files == st.files[st.nextID := r.task]
  {
    MissingIsFirst(st.files, op.blockedBy, i);
  }

  lemma {:induction false} MissingIsFirst(files: Files, ids: seq<int>, i: nat)
    requires i <= |ids| && forall j | 0 <= j < i :: ids[j] in files
    requires i < |ids| ==> ids[i] !in files
    ensures FirstMissing(files, ids) == if i < |ids| then Some(ids[i]) else None
  {
    if i > 0 {
      assert forall j | 0 <= j < i - 1 :: ids[1..][j] == ids[j + 1];
      MissingIsFirst(files, ids[1..], i - 1);
    }
  }

  // An update is refused for an unknown task or status and then changes nothing.
  // Otherwise it is saved with the new status, if one is given, its list
  // changed as asked and the time; what else it says stays, and so does
  // every other task unless this one is completed.
  lemma UpdateSays(st: State, op: Op, now: string)
    requires op.Update?
    ensures op.id !in st.files ==> Updated(st, op, now) == (st, Err(TaskNotFound(op.id)))
    ensures op.id in st.files && op.status !in {"", "pending", "in_progress", "completed"} ==>
      Updated(st, op, now) == (st, Err(InvalidStatus(op.status)))
    ensures op.id in st.files && st.files[op.id].id == op.id && op.status in {"", "pending", "in_progress", "completed"} ==>
      var (t, r) := Updated(st, op, now);
      var was := st.files[op.id];
      && r.Ok? && t.nextID == st.nextID && t.files.Keys == st.files.Keys && t.files[op.id] == r.task
      && r.task.id == op.id && r.task.subject == was.subject && r.task.description == was.description
      && r.task.createdAt == was.createdAt && r.task.updatedAt == now
      && r.task.status == (if op.status == "" then was.status else op.status)
      && (op.add == [] && op.remove == [] ==> r.task.blockedBy == was.blockedBy)
      && (forall x :: x in r.task.blockedBy <==> (x in was.blockedBy || x in op.add) && x !in op.remove)
      && (op.status != "completed" ==> forall id | id in st.files && id != op.id :: t.files[id] == st.files[id])
  {
    if op.id in st.files {
      RewrittenElements(st.files[op.id].blockedBy, op.add, op.remove);
    }
  }

  // ---- The invariant ----------------------------------------------------------------------

  // Every dependency is an existing task with a smaller id.
  predicate DepsOk(files: Files) {
    forall id, d | id in files && d in files[id].blockedBy :: d in files && d < id
  }

  predicate IdsOk(files: Files) {
    forall id | id in files :: id >= 1 && files[id].id == id
  }

  predicate Fresh(st: State) {
    st.nextID >= 1 && forall id | id in st.files :: id < st.nextID
  }

  predicate Inv(st: State) {
    DepsOk(st.files) && IdsOk(st.files) && Fresh(st)
  }

  // One step; reopening looks for the largest id again.
  ghost predicate Steps(st: State, op: Op, now: string, t: State) {
    match op
    case Create(_, _, _) => t == Created(st, op, now).0
    case Update(_, _, _, _) => t == Updated(st, op, now).0
    case Reopen => t.files == st.files && IsMaxID(t.files, t.nextID - 1)
  }

  predicate AddsNothing(op: Op) {
    op.Update? ==> op.add == []
  }

  lemma {:induction false} NoneMissing(files: Files, ids: seq<int>)
    ensures FirstMissing(files, ids).None? <==> forall x | x in ids :: x in files
    ensures FirstMissing(files, ids).Some? ==> FirstMissing(files, ids).value in ids && FirstMissing(files, ids).value !in files
  {
    if ids != [] {
      NoneMissing(files, ids[1..]);
      assert ids[0] in ids && ids == [ids[0]] + ids[1..];
      if FirstMissing(files, ids).None? {
        forall x | x in ids ensures x in files {
          assert x == ids[0] || x in ids[1..];
        }
      } else {
        var v := FirstMissing(files, ids).value;
        assert v in ids && v !in files;
        assert !(forall x | x in ids :: x in files);
      }
    }
  }

  lemma CreateKeepsInv(st: State, op: Op, now: string)
    requires Inv(st) && op.Create?
    ensures Inv(Created(st, op, now).0)
  {
    NoneMissing(st.files, op.blockedBy);
    if FirstMissing(st.files, op.blockedBy).None? {
      AddKeepsDeps(st, Created(st, op, now).1.task);
    }
  }

  lemma AddKeepsDeps(st: State, t: Task)
    requires Inv(st) && forall d | d in t.blockedBy :: d in st.files
    ensures DepsOk(st.files[st.nextID := t])
  {
    assert st.nextID !in st.files;
    var files := st.files[st.nextID := t];
    forall id, d | id in files && d in files[id].blockedBy ensures d in files && d < id {
      if id == st.nextID {
        assert d in t.blockedBy && d in st.files;
      } else {
        assert d in st.files[id].blockedBy;
      }
    }
  }

  lemma ClearedKeepsDeps(files: Files, done: int, now: string)
    requires DepsOk(files)
    ensures DepsOk(ClearedAll(files, done, now))
  {
    forall id, d | id in files && d in Cleared(files[id], done, now).blockedBy ensures d in files && d < id {
      WithoutElements(files[id].blockedBy, {done});
    }
  }

  lemma UpdateKeepsInv(st: State, op: Op, now: string)
    requires Inv(st) && op.Update? && op.add == []
    ensures Inv(Updated(st, op, now).0)
  {
    if op.id in st.files && (op.status == "" || ValidStatus(op.status)) {
      var files := if op.status == "completed" then ClearedAll(st.files, op.id, now) else st.files;
      if op.status == "completed" {
        ClearedKeepsDeps(st.files, op.id, now);
      }
      var t := Updated(st, op, now).1.task;
      WithoutElements(st.files[op.id].blockedBy, ToSet(op.remove));
      assert t.id == op.id;
      forall d | d in t.blockedBy ensures d in files && d < t.id {
        assert d in st.files[op.id].blockedBy;
      }
      SaveKeepsDeps(files, t);
    }
  }

  lemma SaveKeepsDeps(files: Files, t: Task)
    requires DepsOk(files) && t.id in files
    requires forall d | d in t.blockedBy :: d in files && d < t.id
    ensures DepsOk(files[t.id := t])
  {
  }

  lemma StepKeepsInv(st: State, op: Op, now: string, t: State)
    requires Inv(st) && AddsNothing(op) && Steps(st, op, now, t)
    ensures Inv(t)
  {
    match op {
      case Create(_, _, _) => CreateKeepsInv(st, op, now);
      case Update(_, _, _, _) => UpdateKeepsInv(st, op, now);
      case Reopen =>
    }
  }

  // ---- Runs ---------------------------------------------------------------------------------------

  ghost predicate Reaches(ops: seq<(Op, string)>, st: State) {
    if ops == [] then st == State(map[], 1)
    else
      var n := |ops| - 1;
      exists pre :: Reaches(ops[..n], pre) && Steps(pre, ops[n].0, ops[n].1, st)
  }

  predicate NoneAdds(ops: seq<(Op, string)>) {
    forall k | 0 <= k < |ops| :: AddsNothing(ops[k].0)
  }

  // Over every sequence of creations, updates that add no dependency, and
  // restarts: each dependency is an existing task with a smaller id, and the next
  // id exceeds them all.
  lemma {:induction false} ReachableIsInv(ops: seq<(Op, string)>, st: State)
    requires Reaches(ops, st) && NoneAdds(ops)
    ensures Inv(st)
  {
    if ops != [] {
      var n := |ops| - 1;
      var pre :| Reaches(ops[..n], pre) && Steps(pre, ops[n].0, ops[n].1, st);
      assert AddsNothing(ops[n].0);
      ReachableIsInv(ops[..n], pre);
      StepKeepsInv(pre, ops[n].0, ops[n].1, st);
    }
  }

  // A chain of tasks, each waiting for the next.
  predicate Chain(files: Files, ids: seq<int>) {
    forall k | 0 <= k < |ids| - 1 :: ids[k] in files && ids[k + 1] in files[ids[k]].blockedBy
  }

  lemma {:induction false} ChainsDescend(files: Files, ids: seq<int>)
    requires DepsOk(files) && Chain(files, ids) && |ids| >= 2
    ensures ids[|ids| - 1] < ids[0]
  {
    var k := 0;
    assert ids[k] in files && ids[k + 1] in files[ids[k]].blockedBy;
    assert ids[1] < ids[0];
    if |ids| > 2 {
      var rest := ids[1..];
      forall k | 0 <= k < |rest| - 1 ensures rest[k] in files && rest[k + 1] in files[rest[k]].blockedBy {
        assert ids[k + 2] in files[ids[k + 1]].blockedBy;
      }
      ChainsDescend(files, rest);
    }
  }

  // So no task ever waits for itself, however indirectly.
  lemma NoCycles(ops: seq<(Op, string)>, st: State, ids: seq<int>)
    requires Reaches(ops, st) && NoneAdds(ops) && Chain(st.files, ids) && |ids| >= 2
    ensures ids[0] != ids[|ids| - 1]
  {
    ReachableIsInv(ops, st);
    ChainsDescend(st.files, ids);
  }

  // ---- Completing a task ----------------------------------------------------------------------

  predicate SameButTime(t: Task, u: Task) {
    u.(updatedAt := t.updatedAt) == t
  }

  // Completing k takes k, and k only, out of every other task's list; beside the
  // lists it touches only their timestamps, and tasks not waiting for k not at all.
  lemma CompletionClears(st: State, op: Op, now: string, other: int)
    requires op.Update? && op.status == "completed" && op.id in st.files && st.files[op.id].id == op.id
    requires other in st.files && other != op.id
    ensures var t, u := st.files[other], Updated(st, op, now).0.files[other];
      && (forall d :: d in u.blockedBy <==> d in t.blockedBy && d != op.id)
      && SameButTime(t.(blockedBy := u.blockedBy), u)
      && (op.id !in t.blockedBy ==> u == t)
  {
    WithoutElements(st.files[other].blockedBy, {op.id});
  }

  // Afterwards nobody waits for k, except k itself, exactly if its own list named
  // it (or this update adds it) and this update does not remove it.
  lemma CompletedIsAwaitedIff(st: State, op: Op, now: string)
    requires op.Update? && op.status == "completed" && op.id in st.files && IdsOk(st.files)
    ensures (exists id | id in Updated(st, op, now).0.files :: op.id in Updated(st, op, now).0.files[id].blockedBy)
      <==> (op.id in st.files[op.id].blockedBy || op.id in op.add) && op.id !in op.remove
  {
    var files := Updated(st, op, now).0.files;
    var own := st.files[op.id].blockedBy;
    RewrittenElements(own, op.add, op.remove);
    assert op.id in files && files[op.id].blockedBy == Rewritten(own, op.add, op.remove);
    forall id | id in files && id != op.id ensures op.id !in files[id].blockedBy {
      CompletionClears(st, op, now, id);
    }
  }

  // Reached in practice: an update may make a task wait for itself, and completing
  // it does not release it.
  lemma SelfBlockSurvivesCompletion(now: string)
    ensures var st0 := State(map[], 1);
      var st1 := Created(st0, Create("s", "d", []), now).0;
      var st2 := Updated(st1, Update(1, "", [1], []), now).0;
      var st3 := Updated(st2, Update(1, "completed", [], []), now).0;
      1 in st3.files && st3.files[1].status == "completed" && st3.files[1].blockedBy == [1]
  {
    var st0 := State(map[], 1);
    var st1 := Created(st0, Create("s", "d", []), now).0;
    assert st1.files[1].blockedBy == [];
    assert AppendNew([], [1]) == AppendNew([1], []) == [1];
  }

  // ---- The manager object ----------------------------------------------------------------------

  class Manager {
    var files: Files
    var nextID: int

    // NewManager on an existing directory.
    constructor (files: Files)
      ensures this.files == files && IsMaxID(files, nextID - 1)
    {
      this.files, nextID := files, 0;
      new;
      var max := MaxID();
      nextID := max + 1;
    }

    function View(): State
      reads this
    {
      State(files, nextID)
    }

    method MaxID() returns (max: int)
      ensures IsMaxID(files, max)
    {
      max := 0;
      var todo := files.Keys;
      while todo != {}
        invariant todo <= files.Keys
        invariant max >= 0 && (max == 0 || max in files)
        invariant forall id | id in files && id !in todo :: id <= max
        decreases todo
      {
        var id := Pick(todo);
        if id > max {
          max := id;
        }
        todo := todo - {id};
      }
    }

    method CreateTask(subject: string, description: string, blockedBy: seq<int>, now: string) returns (r: Result)
      modifies this
      ensures (View(), r) == Created(old(View()), Create(subject, description, blockedBy), now)
    {
      var i := 0;
      assert blockedBy[0..] == blockedBy;
      while i < |blockedBy|
        invariant 0 <= i <= |blockedBy|
        invariant FirstMissing(files, blockedBy) == FirstMissing(files, blockedBy[i..])
      {
        assert blockedBy[i..][1..] == blockedBy[i + 1..];
        if blockedBy[i] !in files {
          return Err(DependencyNotFound(blockedBy[i]));
        }
        i := i + 1;
      }
      var t := Task(nextID, subject, description, "pending", blockedBy, now, now);
      files := files[nextID := t];
      nextID := nextID + 1;
      return Ok(t);
    }

    method UpdateTask(id: int, status: string, add: seq<int>, remove: seq<int>, now: string) returns (r: Result)
      modifies this`files
      ensures (View(), r) == Updated(old(View()), Update(id, status, add, remove), now)
    {
      if id !in files {
        return Err(TaskNotFound(id));
      }
      var t := files[id];
      if status != "" {
        if !ValidStatus(status) {
          return Err(InvalidStatus(status));
        }
        t := t.(status := status);
        if status == "completed" {
          ClearDependency(id, now);
        }
      }
      if add != [] {
        var merged := Merge([], t.blockedBy);
        merged := Merge(merged, add);
        t := t.(blockedBy := merged);
      }
      if remove != [] {
        var kept := Keep(t.blockedBy, ToSet(remove));
        t := t.(blockedBy := kept);
      }
      t := t.(updatedAt := now);
      files := files[t.id := t];
      return Ok(t);
    }

    // Adds the ids not seen yet.
    static method Merge(start: seq<int>, ids: seq<int>) returns (merged: seq<int>)
      ensures merged == AppendNew(start, ids)
    {
      merged := start;
      var seen := ToSet(start);
      var i := 0;
      assert ids[0..] == ids;
      while i < |ids|
        invariant 0 <= i <= |ids| && seen == ToSet(merged)
        invariant AppendNew(start, ids) == AppendNew(merged, ids[i..])
      {
        assert ids[i..][1..] == ids[i + 1..];
        if ids[i] !in seen {
          seen := seen + {ids[i]};
          merged := merged + [ids[i]];
        }
        i := i + 1;
      }
    }

    static method Keep(ids: seq<int>, remove: set<int>) returns (kept: seq<int>)
      ensures kept == Without(ids, remove)
    {
      kept := [];
      var i := 0;
      while i < |ids|
        invariant 0 <= i <= |ids| && kept == Without(ids[..i], remove)
      {
        assert ids[..i + 1][..i] == ids[..i];
        if ids[i] !in remove {
          kept := kept + [ids[i]];
        }
        i := i + 1;
      }
      assert ids[..i] == ids;
    }

    method ClearDependency(done: int, now: string)
      modifies this`files
      ensures files == ClearedAll(old(files), done, now)
    {
      ghost var was := files;
      var todo := files.Keys;
      while todo != {}
        invariant todo <= files.Keys && files.Keys == was.Keys
        invariant forall id | id in files :: files[id] == if id in todo then was[id] else Cleared(was[id], done, now)
        decreases todo
      {
        var id := Pick(todo);
        var t := files[id];
        if done in t.blockedBy {
          var kept := Keep(t.blockedBy, {done});
          files := files[id := t.(blockedBy := kept, updatedAt := now)];
        }
        todo := todo - {id};
      }
      assert forall id | id in files :: files[id] == ClearedAll(was, done, now)[id];
    }
  }
}
