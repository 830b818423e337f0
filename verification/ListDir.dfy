// The list_dir tool's capped directory walk (internal/tools/builtin/list_dir.go).
module ListDir {
  import opened Basics

  const MAX_DEPTH := 4
  const DEFAULT_DEPTH := 2
  const MAX_ENTRIES: nat := 200

  // A directory's children are taken in the order the listing sorts them into.
  datatype Node =
    | File(name: string)
    | Dir(name: string, children: seq<Node>)
    | Unreadable(name: string, error: string)    // a directory that cannot be read

  datatype Line =
    | Entry(prefix: string, last: bool, name: string, dir: bool)
    | ReadError(prefix: string, error: string)
    | Truncated(prefix: string)

  datatype Failure = ParentRef | NoSuchDirectory | NotADirectory

  datatype Outcome = Listing(lines: seq<Line>) | Failed(why: Failure)

  // The parameter arrives as a JSON number; 0 and below mean the default.
  function DepthLimit(param: Option<real>): (r: int)
    ensures 0 <= r <= 4
    ensures param.None? || param.value <= 0.0 ==> r == 2
    ensures param.Some? && param.value > 0.0 ==>
      r as real <= param.value && (r == 4 || param.value < (r + 1) as real)
  {
    if param.Some? && param.value > 0.0 then Min(param.value.Floor, MAX_DEPTH) else DEFAULT_DEPTH
  }

  // Whether the listing treats a node as a directory.
  predicate IsDir(n: Node) {
    !n.File?
  }

  function EntryFor(nodes: seq<Node>, prefix: string): Line
    requires nodes != []
  {
    Entry(prefix, |nodes| == 1, nodes[0].name, IsDir(nodes[0]))
  }

  function Extend(nodes: seq<Node>, prefix: string): string
    requires nodes != []
  {
    prefix + (if |nodes| == 1 then "    " else "│   ")
  }

  // ---- The reference: a plain preorder traversal down to the depth limit --------

  function Inside(dir: Node, depth: int, limit: int, prefix: string): seq<Line>
    requires !dir.File?
    decreases limit - depth, 1, 0
  {
    if depth > limit then []
    else if dir.Unreadable? then [ReadError(prefix, dir.error)]
    else Forest(dir.children, depth, limit, prefix)
  }

  function Forest(nodes: seq<Node>, depth: int, limit: int, prefix: string): seq<Line>
    requires depth <= limit
    decreases limit - depth, 0, |nodes|
  {
    if nodes == [] then []
    else
      [Entry(prefix, |nodes| == 1, nodes[0].name, !nodes[0].File?)]
      + Below(nodes, depth, limit, prefix) + Forest(nodes[1..], depth, limit, prefix)
  }

  // What the first node contributes below itself.
  function Below(nodes: seq<Node>, depth: int, limit: int, prefix: string): seq<Line>
    requires depth <= limit && nodes != []
    decreases limit - depth, 0, |nodes|, 0
  {
    if !nodes[0].File? && depth < limit then
      Inside(nodes[0], depth + 1, limit, prefix + (if |nodes| == 1 then "    " else "│   "))
    else []
  }

  function Entries(lines: seq<Line>): seq<Line> {
    if lines == [] then []
    else (if lines[0].Entry? then [lines[0]] else []) + Entries(lines[1..])
  }

  // Lines up to and including the room-th entry.
  function Cut(lines: seq<Line>, room: nat): seq<Line> {
    if room == 0 || lines == [] then []
    else [lines[0]] + Cut(lines[1..], if lines[0].Entry? then room - 1 else room)
  }

  function Plain(lines: seq<Line>): seq<Line> {
    if lines == [] then []
    else (if lines[0].Truncated? then [] else [lines[0]]) + Plain(lines[1..])
  }

  // ---- The capped walk --------------------------------------------------------------

  function Less(room: nat, used: nat): nat {
    if used <= room then room - used else 0
  }

  function CappedInside(dir: Node, depth: int, limit: int, prefix: string, room: nat): seq<Line>
    requires IsDir(dir)
    decreases limit - depth, 1, 0
  {
    if depth > limit || room == 0 then []
    else if dir.Unreadable? then [ReadError(prefix, dir.error)]
    else CappedForest(dir.children, depth, limit, prefix, room)
  }

  function CappedForest(nodes: seq<Node>, depth: int, limit: int, prefix: string, room: nat): seq<Line>
    requires depth <= limit
    decreases limit - depth, 0, |nodes|
  {
    if nodes == [] then []
    else if room == 0 then [Truncated(prefix)]
    else
      var below := CappedBelow(nodes, depth, limit, prefix, room - 1);
      [EntryFor(nodes, prefix)] + below + CappedForest(nodes[1..], depth, limit, prefix, Less(room - 1, |Entries(below)|))
  }

  function CappedBelow(nodes: seq<Node>, depth: int, limit: int, prefix: string, room: nat): seq<Line>
    requires depth <= limit && nodes != []
    decreases limit - depth, 0, |nodes|, 0
  {
    if IsDir(nodes[0]) && depth < limit then CappedInside(nodes[0], depth + 1, limit, Extend(nodes, prefix), room) else []
  }

  // ---- Sequence facts -----------------------------------------------------------------

  lemma {:induction false} EntriesAppend(a: seq<Line>, b: seq<Line>)
    ensures Entries(a + b) == Entries(a) + Entries(b)
  {
    if a == [] {
      assert a + b == b;
    } else {
      EntriesAppend(a[1..], b);
      assert (a + b)[1..] == a[1..] + b;
      Assoc(if a[0].Entry? then [a[0]] else [], Entries(a[1..]), Entries(b));
    }
  }

  lemma {:induction false} PlainAppend(a: seq<Line>, b: seq<Line>)
    ensures Plain(a + b) == Plain(a) + Plain(b)
  {
    if a == [] {
      assert a + b == b;
    } else {
      PlainAppend(a[1..], b);
      assert (a + b)[1..] == a[1..] + b;
      Assoc(if a[0].Truncated? then [] else [a[0]], Plain(a[1..]), Plain(b));
    }
  }

  lemma {:induction false} CutAppend(a: seq<Line>, b: seq<Line>, room: nat)
    ensures Cut(a + b, room) == Cut(a, room) + Cut(b, Less(room, |Entries(a)|))
  {
    if a == [] {
      assert a + b == b;
    } else if room > 0 {
      CutAppend(a[1..], b, if a[0].Entry? then room - 1 else room);
      assert (a + b)[1..] == a[1..] + b;
    }
  }

  lemma {:induction false} EntriesOfCut(lines: seq<Line>, room: nat)
    ensures Entries(Cut(lines, room)) == Entries(lines)[..Min(room, |Entries(lines)|)]
  {
    if room > 0 && lines != [] {
      var left := if lines[0].Entry? then room - 1 else room;
      EntriesOfCut(lines[1..], left);
      assert Cut(lines, room)[1..] == Cut(lines[1..], left);
    }
  }

  lemma {:induction false} EntriesOfPlain(lines: seq<Line>)
    ensures Entries(Plain(lines)) == Entries(lines)
  {
    if lines != [] {
      EntriesOfPlain(lines[1..]);
      EntriesAppend(if lines[0].Truncated? then [] else [lines[0]], Plain(lines[1..]));
    }
  }

  lemma CutOfCons(l: Line, rest: seq<Line>, room: nat)
    requires l.Entry? && room > 0
    ensures Cut([l] + rest, room) == [l] + Cut(rest, room - 1)
  {
    assert ([l] + rest)[1..] == rest;
  }

  lemma PlainOfCons(l: Line, rest: seq<Line>)
    requires l.Entry?
    ensures Plain([l] + rest) == [l] + Plain(rest)
  {
    assert ([l] + rest)[1..] == rest;
  }

  // ---- The capped walk shows a cut of the reference --------------------------------------

  lemma {:induction false} InsideIsCut(dir: Node, depth: int, limit: int, prefix: string, room: nat)
    requires IsDir(dir)
    ensures Plain(CappedInside(dir, depth, limit, prefix, room)) == Cut(Inside(dir, depth, limit, prefix), room)
    decreases limit - depth, 1, 0
  {
    if depth <= limit && room > 0 {
      if dir.Unreadable? {
        var e := [ReadError(prefix, dir.error)];
        assert e[1..] == [];
        assert Cut(e[1..], room) == [];
      } else {
        ForestIsCut(dir.children, depth, limit, prefix, room);
      }
    }
  }

  lemma {:induction false} BelowIsCut(nodes: seq<Node>, depth: int, limit: int, prefix: string, room: nat)
    requires depth <= limit && nodes != []
    ensures Plain(CappedBelow(nodes, depth, limit, prefix, room)) == Cut(Below(nodes, depth, limit, prefix), room)
    decreases limit - depth, 0, |nodes|, 0
  {
    if IsDir(nodes[0]) && depth < limit {
      InsideIsCut(nodes[0], depth + 1, limit, Extend(nodes, prefix), room);
    }
  }

  lemma {:induction false} ForestIsCut(nodes: seq<Node>, depth: int, limit: int, prefix: string, room: nat)
    requires depth <= limit
    ensures Plain(CappedForest(nodes, depth, limit, prefix, room)) == Cut(Forest(nodes, depth, limit, prefix), room)
    decreases limit - depth, 0, |nodes|
  {
    if nodes != [] {
      if room == 0 {
        assert [Truncated(prefix)][1..] == [];
      } else {
        var e := EntryFor(nodes, prefix);
        var below, capped := Below(nodes, depth, limit, prefix), CappedBelow(nodes, depth, limit, prefix, room - 1);
        BelowIsCut(nodes, depth, limit, prefix, room - 1);
        UsedRoom(below, capped, room - 1);
        var left := Less(room - 1, |Entries(capped)|);
        ForestIsCut(nodes[1..], depth, limit, prefix, left);
        JoinCuts(e, below, capped, Forest(nodes[1..], depth, limit, prefix),
                 CappedForest(nodes[1..], depth, limit, prefix, left), room - 1);
      }
    }
  }

  // The room left after a subtree is the same for the cut and for the whole.
  lemma UsedRoom(whole: seq<Line>, capped: seq<Line>, room: nat)
    requires Plain(capped) == Cut(whole, room)
    ensures |Entries(capped)| == Min(room, |Entries(whole)|)
    ensures Less(room, |Entries(capped)|) == Less(room, |Entries(whole)|)
  {
    EntriesOfPlain(capped);
    EntriesOfCut(whole, room);
  }

  lemma JoinCuts(e: Line, below: seq<Line>, cappedBelow: seq<Line>, rest: seq<Line>, cappedRest: seq<Line>, room: nat)
    requires e.Entry? && Plain(cappedBelow) == Cut(below, room)
    requires Plain(cappedRest) == Cut(rest, Less(room, |Entries(below)|))
    ensures Plain([e] + cappedBelow + cappedRest) == Cut([e] + below + rest, room + 1)
  {
    Assoc([e], cappedBelow, cappedRest);
    Assoc([e], below, rest);
    PlainOfCons(e, cappedBelow + cappedRest);
    PlainAppend(cappedBelow, cappedRest);
    CutOfCons(e, below + rest, room + 1);
    CutAppend(below, rest, room);
  }

  // ---- When a "(truncated)" line appears --------------------------------------------------

  predicate HasTruncated(lines: seq<Line>) {
    exists l | l in lines :: l.Truncated?
  }

  lemma EntriesOfForest(nodes: seq<Node>, depth: int, limit: int, prefix: string)
    requires depth <= limit && nodes != []
    ensures Entries(Forest(nodes, depth, limit, prefix))
         == [EntryFor(nodes, prefix)] + Entries(Below(nodes, depth, limit, prefix)) + Entries(Forest(nodes[1..], depth, limit, prefix))
  {
    var e := [EntryFor(nodes, prefix)];
    EntriesAppend(e + Below(nodes, depth, limit, prefix), Forest(nodes[1..], depth, limit, prefix));
    EntriesAppend(e, Below(nodes, depth, limit, prefix));
    assert e[1..] == [];
  }

  // Indentation grows with depth, so in a preorder listing the entries below one
  // entry are those that follow it indented deeper. Past the k-th entry there is
  // one that is not below it.
  predicate GoesOnBeside(es: seq<Line>, k: nat) {
    exists j | k <= j < |es| :: k == 0 || Indent(es[j]) <= Indent(es[k - 1])
  }

  function Indent(l: Line): nat {
    |l.prefix|
  }

  predicate IndentedFrom(es: seq<Line>, indent: nat) {
    forall j | 0 <= j < |es| :: indent <= Indent(es[j])
  }

  lemma {:induction false} ForestIndents(nodes: seq<Node>, depth: int, limit: int, prefix: string)
    requires depth <= limit
    ensures var es := Entries(Forest(nodes, depth, limit, prefix));
      && IndentedFrom(es, |prefix|)
      && (nodes == [] <==> es == [])
      && (es != [] ==> Indent(es[0]) == |prefix| && es[0].prefix == prefix)
    decreases limit - depth, 0, |nodes|
  {
    if nodes != [] {
      EntriesOfForest(nodes, depth, limit, prefix);
      BelowIndents(nodes, depth, limit, prefix);
      ForestIndents(nodes[1..], depth, limit, prefix);
    }
  }

  lemma {:induction false} BelowIndents(nodes: seq<Node>, depth: int, limit: int, prefix: string)
    requires depth <= limit && nodes != []
    ensures IndentedFrom(Entries(Below(nodes, depth, limit, prefix)), |prefix| + 1)
    decreases limit - depth, 0, |nodes|, 0
  {
    if nodes[0].Dir? && depth < limit {
      ForestIndents(nodes[0].children, depth + 1, limit, Extend(nodes, prefix));
    } else if nodes[0].Unreadable? && depth < limit {
      assert [ReadError(Extend(nodes, prefix), nodes[0].error)][1..] == [];
    }
  }

  // How the condition splits over an entry, what is below it and what follows.
  lemma BesideInside(e: Line, below: seq<Line>, rest: seq<Line>, k: nat)
    requires IndentedFrom(below, Indent(e) + 1) && k <= |below|
    requires rest != [] ==> Indent(rest[0]) == Indent(e)
    ensures GoesOnBeside([e] + below + rest, k + 1) <==> (k > 0 && GoesOnBeside(below, k)) || rest != []
  {
    var es, b := [e] + below + rest, |below|;
    assert forall j | 0 <= j < b :: es[j + 1] == below[j];
    if rest != [] {
      assert es[1 + b] == rest[0] && Indent(es[1 + b]) <= Indent(es[k]);
    } else {
      if k > 0 && GoesOnBeside(below, k) {
        var j :| k <= j < b && Indent(below[j]) <= Indent(below[k - 1]);
        assert Indent(es[j + 1]) <= Indent(es[k]);
      }
      if GoesOnBeside(es, k + 1) {
        var j :| k + 1 <= j < |es| && Indent(es[j]) <= Indent(es[k]);
        assert es[j] == below[j - 1];
      }
    }
  }

  lemma BesideAfter(e: Line, below: seq<Line>, rest: seq<Line>, k: nat)
    requires |below| < k
    ensures GoesOnBeside([e] + below + rest, k + 1) <==> GoesOnBeside(rest, k - |below|)
  {
    var es, b := [e] + below + rest, |below|;
    assert forall j | 0 <= j < |rest| :: es[j + 1 + b] == rest[j];
    if GoesOnBeside(rest, k - b) {
      var j :| k - b <= j < |rest| && Indent(rest[j]) <= Indent(rest[k - b - 1]);
      assert Indent(es[j + 1 + b]) <= Indent(es[k]);
    }
    if GoesOnBeside(es, k + 1) {
      var j :| k + 1 <= j < |es| && Indent(es[j]) <= Indent(es[k]);
      assert es[j] == rest[j - 1 - b];
    }
  }

  lemma BesideSplits(e: Line, below: seq<Line>, rest: seq<Line>, k: nat)
    requires IndentedFrom(below, Indent(e) + 1)
    requires rest != [] ==> Indent(rest[0]) == Indent(e)
    ensures GoesOnBeside([e] + below + rest, k + 1) <==>
      if k == 0 then rest != []
      else if k <= |below| then GoesOnBeside(below, k) || rest != []
      else GoesOnBeside(rest, k - |below|)
  {
    if k <= |below| {
      BesideInside(e, below, rest, k);
    } else {
      BesideAfter(e, below, rest, k);
    }
  }

  // What one step of the capped loop says of "(truncated)" lines.
  lemma TruncatedSplits(nodes: seq<Node>, depth: int, limit: int, prefix: string, room: nat)
    requires depth <= limit && nodes != [] && room > 0
    ensures var b := |Entries(Below(nodes, depth, limit, prefix))|;
      HasTruncated(CappedForest(nodes, depth, limit, prefix, room)) <==>
        HasTruncated(CappedBelow(nodes, depth, limit, prefix, room - 1))
        || HasTruncated(CappedForest(nodes[1..], depth, limit, prefix, Less(room - 1, b)))
  {
    var e := [EntryFor(nodes, prefix)];
    var capped := CappedBelow(nodes, depth, limit, prefix, room - 1);
    BelowIsCut(nodes, depth, limit, prefix, room - 1);
    UsedRoom(Below(nodes, depth, limit, prefix), capped, room - 1);
    var rest := CappedForest(nodes[1..], depth, limit, prefix, Less(room - 1, |Entries(capped)|));
    assert CappedForest(nodes, depth, limit, prefix, room) == e + capped + rest;
    assert forall l :: l in e + capped + rest <==> l in e || l in capped || l in rest;
  }

  // A "(truncated)" line appears exactly if the traversal goes on beside the
  // last entry shown, not only below it.
  lemma {:induction false} ForestTruncatesIff(nodes: seq<Node>, depth: int, limit: int, prefix: string, room: nat)
    requires depth <= limit
    ensures HasTruncated(CappedForest(nodes, depth, limit, prefix, room))
       <==> GoesOnBeside(Entries(Forest(nodes, depth, limit, prefix)), room)
    decreases limit - depth, 0, |nodes|
  {
    ForestIndents(nodes, depth, limit, prefix);
    if nodes != [] && room > 0 {
      var e, below := EntryFor(nodes, prefix), Entries(Below(nodes, depth, limit, prefix));
      var rest := Entries(Forest(nodes[1..], depth, limit, prefix));
      EntriesOfForest(nodes, depth, limit, prefix);
      BelowIndents(nodes, depth, limit, prefix);
      ForestIndents(nodes[1..], depth, limit, prefix);
      BesideSplits(e, below, rest, room - 1);
      TruncatedSplits(nodes, depth, limit, prefix, room);
      BelowTruncatesIff(nodes, depth, limit, prefix, room - 1);
      ForestTruncatesIff(nodes[1..], depth, limit, prefix, Less(room - 1, |below|));
    } else if nodes != [] {
      assert HasTruncated([Truncated(prefix)]) by { assert Truncated(prefix) in [Truncated(prefix)]; }
    }
  }

  lemma {:induction false} BelowTruncatesIff(nodes: seq<Node>, depth: int, limit: int, prefix: string, room: nat)
    requires depth <= limit && nodes != []
    ensures HasTruncated(CappedBelow(nodes, depth, limit, prefix, room))
       <==> room > 0 && GoesOnBeside(Entries(Below(nodes, depth, limit, prefix)), room)
    decreases limit - depth, 0, |nodes|, 0
  {
    if nodes[0].Dir? && depth < limit {
      ForestTruncatesIff(nodes[0].children, depth + 1, limit, Extend(nodes, prefix), room);
    } else if nodes[0].Unreadable? && depth < limit {
      assert [ReadError(Extend(nodes, prefix), nodes[0].error)][1..] == [];
    }
  }

  // ---- Which "(truncated)" lines appear ----------------------------------------------------

  // One for each entry left out that is indented less than every entry between
  // the last one shown and it, and less than `bound`: where the listing would have
  // gone on after each directory that was cut short, innermost first.
  function Marks(es: seq<Line>, bound: nat): seq<Line> {
    if es == [] then []
    else if Indent(es[0]) < bound then [Truncated(es[0].prefix)] + Marks(es[1..], Indent(es[0]))
    else Marks(es[1..], bound)
  }

  function Lowest(es: seq<Line>, bound: nat): nat {
    if es == [] then bound else Lowest(es[1..], Min(bound, Indent(es[0])))
  }

  lemma {:induction false} MarksAppend(a: seq<Line>, b: seq<Line>, bound: nat)
    ensures Marks(a + b, bound) == Marks(a, bound) + Marks(b, Lowest(a, bound))
    decreases |a|
  {
    if a == [] {
      assert a + b == b;
    } else {
      assert (a + b)[1..] == a[1..] + b;
      MarksAppend(a[1..], b, Min(bound, Indent(a[0])));
    }
  }

  lemma {:induction false} LowestIsAtLeast(es: seq<Line>, bound: nat, low: nat)
    requires IndentedFrom(es, low) && low <= bound
    ensures low <= Lowest(es, bound)
    decreases |es|
  {
    if es != [] {
      assert low <= Indent(es[0]);
      assert IndentedFrom(es[1..], low) by {
        forall j | 0 <= j < |es[1..]| ensures low <= Indent(es[1..][j]) {
          assert es[1..][j] == es[j + 1];
        }
      }
      LowestIsAtLeast(es[1..], Min(bound, Indent(es[0])), low);
    }
  }

  lemma {:induction false} NoMarks(es: seq<Line>, bound: nat)
    requires IndentedFrom(es, bound)
    ensures Marks(es, bound) == []
    decreases |es|
  {
    if es != [] {
      assert bound <= Indent(es[0]);
      assert IndentedFrom(es[1..], bound) by {
        forall j | 0 <= j < |es[1..]| ensures bound <= Indent(es[1..][j]) {
          assert es[1..][j] == es[j + 1];
        }
      }
      NoMarks(es[1..], bound);
    }
  }

  // A list that starts below both bounds is marked the same under either.
  lemma SameMarks(es: seq<Line>, low: nat, one: nat, other: nat)
    requires es != [] ==> Indent(es[0]) == low
    requires low < one && low < other
    ensures Marks(es, one) == Marks(es, other)
  {
  }

  // Indentation of the room-th entry, past which marks begin.
  function BoundAt(es: seq<Line>, room: nat, top: nat): nat {
    if room == 0 then top else if room <= |es| then Indent(es[room - 1]) + 1 else 0
  }

  function Rest(es: seq<Line>, room: nat): seq<Line> {
    if room <= |es| then es[room..] else []
  }

  // The cut listing followed by its marks.
  function Marked(whole: seq<Line>, room: nat, top: nat): seq<Line> {
    Cut(whole, room) + Marks(Rest(Entries(whole), room), BoundAt(Entries(whole), room, top))
  }

  lemma JoinMarksInside(e: Line, eb: seq<Line>, er: seq<Line>, r: nat)
    requires IndentedFrom(eb, Indent(e) + 1) && (er != [] ==> Indent(er[0]) == Indent(e)) && r < |eb|
    ensures var es := [e] + eb + er;
      Marks(Rest(es, r + 1), BoundAt(es, r + 1, Indent(e) + 1))
      == Marks(Rest(eb, r), BoundAt(eb, r, Indent(e) + 1)) + Marks(er, Indent(e) + 1)
  {
    var es, top := [e] + eb + er, Indent(e) + 1;
    assert es[r + 1..] == eb[r..] + er;
    assert es[r] == if r == 0 then e else eb[r - 1];
    var bound := BoundAt(eb, r, top);
    assert BoundAt(es, r + 1, top) == bound >= top;
    MarksAppend(eb[r..], er, bound);
    assert IndentedFrom(eb[r..], top) by {
      forall j | 0 <= j < |eb[r..]| ensures top <= Indent(eb[r..][j]) {
        assert eb[r..][j] == eb[r + j];
      }
    }
    LowestIsAtLeast(eb[r..], bound, top);
    SameMarks(er, Indent(e), Lowest(eb[r..], bound), top);
  }

  lemma JoinMarksAfter(e: Line, eb: seq<Line>, er: seq<Line>, r: nat)
    requires IndentedFrom(eb, Indent(e) + 1) && (er != [] ==> Indent(er[0]) == Indent(e)) && |eb| <= r
    ensures var es := [e] + eb + er;
      Marks(Rest(es, r + 1), BoundAt(es, r + 1, Indent(e) + 1))
      == Marks(Rest(er, r - |eb|), BoundAt(er, r - |eb|, Indent(e) + 1))
  {
    var es, left := [e] + eb + er, r - |eb|;
    RestAfter([e] + eb, er, left);
    if 0 < left <= |er| {
      assert es[r] == er[left - 1];
    } else if left == 0 {
      LastIndent(e, eb);
      assert es[r] == ([e] + eb)[r];
      SameMarks(er, Indent(e), Indent(es[r]) + 1, Indent(e) + 1);
    }
  }

  lemma RestAfter(front: seq<Line>, er: seq<Line>, left: nat)
    ensures Rest(front + er, |front| + left) == Rest(er, left)
    ensures Rest(er, 0) == er
  {
    if left <= |er| {
      assert (front + er)[|front| + left..] == er[left..];
    }
  }

  lemma LastIndent(e: Line, eb: seq<Line>)
    requires IndentedFrom(eb, Indent(e) + 1)
    ensures Indent(([e] + eb)[|eb|]) >= Indent(e)
  {
  }

  lemma {:induction false} ForestIsMarked(nodes: seq<Node>, depth: int, limit: int, prefix: string, room: nat)
    requires depth <= limit
    ensures CappedForest(nodes, depth, limit, prefix, room) == Marked(Forest(nodes, depth, limit, prefix), room, |prefix| + 1)
    decreases limit - depth, 0, |nodes|
  {
    ForestIndents(nodes, depth, limit, prefix);
    if nodes != [] && room > 0 {
      BelowIsMarked(nodes, depth, limit, prefix, room - 1);
      var left := Less(room - 1, |Entries(Below(nodes, depth, limit, prefix))|);
      ForestIsMarked(nodes[1..], depth, limit, prefix, left);
      MarkedJoins(nodes, depth, limit, prefix, room,
                  Below(nodes, depth, limit, prefix), Forest(nodes[1..], depth, limit, prefix),
                  CappedBelow(nodes, depth, limit, prefix, room - 1), CappedForest(nodes[1..], depth, limit, prefix, left));
    } else if nodes != [] {
      var es := Entries(Forest(nodes, depth, limit, prefix));
      assert es[0..] == es;
      assert IndentedFrom(es[1..], |prefix|) by {
        forall j | 0 <= j < |es[1..]| ensures |prefix| <= Indent(es[1..][j]) {
          assert es[1..][j] == es[j + 1];
        }
      }
      NoMarks(es[1..], |prefix|);
    }
  }

  lemma MarkedJoins(nodes: seq<Node>, depth: int, limit: int, prefix: string, room: nat,
                    below: seq<Line>, rest: seq<Line>, cappedBelow: seq<Line>, cappedRest: seq<Line>)
    requires depth <= limit && nodes != [] && room > 0
    requires below == Below(nodes, depth, limit, prefix) && rest == Forest(nodes[1..], depth, limit, prefix)
    requires cappedBelow == CappedBelow(nodes, depth, limit, prefix, room - 1)
    requires cappedRest == CappedForest(nodes[1..], depth, limit, prefix, Less(room - 1, |Entries(below)|))
    requires cappedBelow == Marked(below, room - 1, |prefix| + 1)
    requires cappedRest == Marked(rest, Less(room - 1, |Entries(below)|), |prefix| + 1)
    ensures CappedForest(nodes, depth, limit, prefix, room) == Marked(Forest(nodes, depth, limit, prefix), room, |prefix| + 1)
  {
    assert IndentedFrom(Entries(below), |prefix| + 1) by { BelowIndents(nodes, depth, limit, prefix); }
    assert Entries(rest) != [] ==> Indent(Entries(rest)[0]) == |prefix| by { ForestIndents(nodes[1..], depth, limit, prefix); }
    CappedSplits(nodes, depth, limit, prefix, room);
    JoinMarked(EntryFor(nodes, prefix), below, rest, cappedBelow, cappedRest, room - 1,
               CappedForest(nodes, depth, limit, prefix, room), Forest(nodes, depth, limit, prefix), |prefix| + 1);
  }

  lemma CappedSplits(nodes: seq<Node>, depth: int, limit: int, prefix: string, room: nat)
    requires depth <= limit && nodes != [] && room > 0
    ensures CappedForest(nodes, depth, limit, prefix, room)
         == [EntryFor(nodes, prefix)] + CappedBelow(nodes, depth, limit, prefix, room - 1)
            + CappedForest(nodes[1..], depth, limit, prefix, Less(room - 1, |Entries(Below(nodes, depth, limit, prefix))|))
    ensures Forest(nodes, depth, limit, prefix)
         == [EntryFor(nodes, prefix)] + Below(nodes, depth, limit, prefix) + Forest(nodes[1..], depth, limit, prefix)
  {
    BelowIsCut(nodes, depth, limit, prefix, room - 1);
    UsedRoom(Below(nodes, depth, limit, prefix), CappedBelow(nodes, depth, limit, prefix, room - 1), room - 1);
  }

  lemma CutJoins(e: Line, below: seq<Line>, rest: seq<Line>, r: nat)
    requires e.Entry?
    ensures Cut([e] + below + rest, r + 1) == [e] + Cut(below, r) + Cut(rest, Less(r, |Entries(below)|))
  {
    Assoc([e], below, rest);
    CutOfCons(e, below + rest, r + 1);
    CutAppend(below, rest, r);
    Assoc([e], Cut(below, r), Cut(rest, Less(r, |Entries(below)|)));
  }

  lemma EntriesJoin(e: Line, below: seq<Line>, rest: seq<Line>)
    requires e.Entry?
    ensures Entries([e] + below + rest) == [e] + Entries(below) + Entries(rest)
  {
    EntriesAppend([e] + below, rest);
    EntriesAppend([e], below);
    assert [e][1..] == [];
  }

  lemma Shuffle<T>(e: seq<T>, cut: seq<T>, marks: seq<T>, more: seq<T>)
    ensures e + (cut + marks) + more == (e + cut + []) + (marks + more)
    ensures e + (cut + []) + (marks + more) == (e + cut + marks) + more
  {
  }

  lemma JoinMarked(e: Line, below: seq<Line>, rest: seq<Line>, cappedBelow: seq<Line>, cappedRest: seq<Line>, r: nat,
                   capped: seq<Line>, whole: seq<Line>, top: nat)
    requires e.Entry? && capped == [e] + cappedBelow + cappedRest && whole == [e] + below + rest
    requires top == Indent(e) + 1 && IndentedFrom(Entries(below), top)
    requires Entries(rest) != [] ==> Indent(Entries(rest)[0]) == Indent(e)
    requires cappedBelow == Marked(below, r, top)
    requires cappedRest == Marked(rest, Less(r, |Entries(below)|), top)
    ensures capped == Marked(whole, r + 1, top)
  {
    CutJoins(e, below, rest, r);
    EntriesJoin(e, below, rest);
    MarksJoin(e, Entries(below), Entries(rest), Cut(below, r), Cut(rest, Less(r, |Entries(below)|)), cappedBelow, cappedRest, r);
  }

  lemma MarksJoin(e: Line, eb: seq<Line>, er: seq<Line>, cb: seq<Line>, cr: seq<Line>, below: seq<Line>, rest: seq<Line>, r: nat)
    requires IndentedFrom(eb, Indent(e) + 1) && (er != [] ==> Indent(er[0]) == Indent(e))
    requires r < |eb| ==> cr == []
    requires below == cb + Marks(Rest(eb, r), BoundAt(eb, r, Indent(e) + 1))
    requires rest == cr + Marks(Rest(er, Less(r, |eb|)), BoundAt(er, Less(r, |eb|), Indent(e) + 1))
    ensures [e] + below + rest
         == [e] + cb + cr + Marks(Rest([e] + eb + er, r + 1), BoundAt([e] + eb + er, r + 1, Indent(e) + 1))
  {
    var top := Indent(e) + 1;
    if r < |eb| {
      JoinMarksInside(e, eb, er, r);
      assert Rest(er, 0) == er;
      Shuffle([e], cb, Marks(Rest(eb, r), BoundAt(eb, r, top)), Marks(er, top));
    } else {
      JoinMarksAfter(e, eb, er, r);
      assert Rest(eb, r) == [];
      Shuffle([e], cb, cr, Marks(Rest(er, r - |eb|), BoundAt(er, r - |eb|, top)));
    }
  }

  lemma MarkedFew(line: Line, room: nat, top: nat)
    requires line.ReadError? && room > 0
    ensures Marked([], room, top) == [] && Marked([line], room, top) == [line]
  {
    assert [line][1..] == [];
    assert Entries([line]) == Entries([line][1..]) == [];
    assert Cut([line], room) == [line] + Cut([line][1..], room) == [line];
  }

  lemma {:induction false} BelowIsMarked(nodes: seq<Node>, depth: int, limit: int, prefix: string, room: nat)
    requires depth <= limit && nodes != []
    ensures CappedBelow(nodes, depth, limit, prefix, room) == Marked(Below(nodes, depth, limit, prefix), room, |prefix| + 1)
    decreases limit - depth, 0, |nodes|, 0
  {
    if room == 0 {
      var whole := Below(nodes, depth, limit, prefix);
      assert IndentedFrom(Entries(whole), |prefix| + 1) by { BelowIndents(nodes, depth, limit, prefix); }
      NoMarks(Entries(whole), |prefix| + 1);
      assert Entries(whole)[0..] == Entries(whole);
    } else if nodes[0].Dir? && depth < limit {
      ForestIsMarked(nodes[0].children, depth + 1, limit, Extend(nodes, prefix), room);
    } else if nodes[0].Unreadable? && depth < limit {
      var line := ReadError(Extend(nodes, prefix), nodes[0].error);
      MarkedFew(line, room, |prefix| + 1);
    } else {
      MarkedFew(ReadError(prefix, ""), room, |prefix| + 1);
    }
  }

  // ---- Main results ------------------------------------------------------------------------------

  // What the tool prints below the header.
  function Walk(root: Node, limit: int): seq<Line>
    requires IsDir(root)
  {
    CappedInside(root, 1, limit, "", MAX_ENTRIES)
  }

  // Exactly when a "(truncated)" line appears: some entry was left out that is
  // not below the 200th. If all of them are below it, the listing says nothing.
  lemma WalkTruncatesIff(root: Node, limit: int)
    requires IsDir(root)
    ensures HasTruncated(Walk(root, limit)) <==> GoesOnBeside(Entries(Inside(root, 1, limit, "")), 200)
  {
    if root.Dir? && 1 <= limit {
      ForestTruncatesIff(root.children, 1, limit, "", MAX_ENTRIES);
    } else if root.Unreadable? {
      assert [ReadError("", root.error)][1..] == [];
    }
  }

  // For every tree: without its "(truncated)" lines the listing is the plain
  // preorder traversal cut after its 200th entry, so its entries are exactly the
  // first min(200, N); and a "(truncated)" line implies that some were left out.
  lemma WalkIsFirst200(root: Node, limit: int)
    requires IsDir(root)
    ensures var full := Inside(root, 1, limit, "");
      && Plain(Walk(root, limit)) == Cut(full, 200)
      && Entries(Walk(root, limit)) == Entries(full)[..Min(200, |Entries(full)|)]
      && (HasTruncated(Walk(root, limit)) ==> |Entries(full)| > 200)
  {
    var full := Inside(root, 1, limit, "");
    InsideIsCut(root, 1, limit, "", MAX_ENTRIES);
    EntriesOfCut(full, MAX_ENTRIES);
    EntriesOfPlain(Walk(root, limit));
    WalkTruncatesIff(root, limit);
  }

  // The whole listing, line by line: the traversal cut after its 200th entry,
  // then a "(truncated)" line for each level at which it would have gone on.
  lemma WalkIs(root: Node, limit: int)
    requires IsDir(root)
    ensures var full := Inside(root, 1, limit, "");
      var es := Entries(full);
      Walk(root, limit) == if |es| <= 200 then Cut(full, 200) else Cut(full, 200) + Marks(es[200..], Indent(es[199]) + 1)
  {
    var full := Inside(root, 1, limit, "");
    if root.Dir? && 1 <= limit {
      ForestIsMarked(root.children, 1, limit, "", 200);
      assert Cut(full, 200) + [] == Cut(full, 200);
    } else if root.Unreadable? && 1 <= limit {
      assert [ReadError("", root.error)][1..] == [];
    }
  }

  // Few entries: the listing is complete, error lines included.
  lemma {:induction false} CutOfFew(lines: seq<Line>, room: nat)
    requires |Entries(lines)| < room
    ensures Cut(lines, room) == lines
  {
    if lines != [] {
      CutOfFew(lines[1..], if lines[0].Entry? then room - 1 else room);
    }
  }

  lemma SmallTreesAreComplete(root: Node, limit: int)
    requires IsDir(root) && |Entries(Inside(root, 1, limit, ""))| < MAX_ENTRIES
    ensures Walk(root, limit) == Inside(root, 1, limit, "")
  {
    var full := Inside(root, 1, limit, "");
    WalkIsFirst200(root, limit);
    CutOfFew(full, MAX_ENTRIES);
    PlainIsAll(Walk(root, limit));
  }

  lemma {:induction false} PlainIsAll(lines: seq<Line>)
    requires !HasTruncated(lines)
    ensures Plain(lines) == lines
  {
    if lines != [] {
      assert forall l | l in lines[1..] :: l in lines;
      PlainIsAll(lines[1..]);
    }
  }

  // ---- A directory that loses an entry in silence ---------------------------------------------

  // The order of names, character by character.
  predicate NameLess(a: string, b: string) {
    b != "" && (a == "" || a[0] < b[0] || (a[0] == b[0] && NameLess(a[1..], b[1..])))
  }

  // As a directory can hold them and sortEntries leaves them: distinct names,
  // directories first, then by name.
  predicate Sorted(nodes: seq<Node>) {
    forall i, j | 0 <= i < j < |nodes| ::
      && nodes[i].name != nodes[j].name
      && (IsDir(nodes[j]) ==> IsDir(nodes[i]))
      && (IsDir(nodes[i]) == IsDir(nodes[j]) ==> NameLess(nodes[i].name, nodes[j].name))
  }

  // "d", "dd", "ddd", ...
  function Name(i: nat): string {
    if i == 0 then "d" else "d" + Name(i - 1)
  }

  // Directories from number i on, n empty ones and one with a file in it.
  function Dirs(i: nat, n: nat): seq<Node>
    decreases n
  {
    if n == 0 then [Dir(Name(i), [File("x")])] else [Dir(Name(i), [])] + Dirs(i + 1, n - 1)
  }

  lemma {:induction false} NamesAscend(i: nat, j: nat)
    requires i < j
    ensures NameLess(Name(i), Name(j)) && |Name(i)| < |Name(j)|
  {
    if i > 0 {
      NamesAscend(i - 1, j - 1);
      assert Name(i)[1..] == Name(i - 1) && Name(j)[1..] == Name(j - 1);
    } else {
      assert Name(0)[1..] == "" && Name(j)[1..] == Name(j - 1);
      NameNonEmpty(j);
    }
  }

  lemma {:induction false} NameNonEmpty(j: nat)
    ensures |Name(j)| == j + 1
  {
    if j > 0 {
      NameNonEmpty(j - 1);
    }
  }

  lemma {:induction false} DirAt(i: nat, n: nat, k: nat)
    requires k <= n
    ensures |Dirs(i, n)| == n + 1 && Dirs(i, n)[k].Dir? && Dirs(i, n)[k].name == Name(i + k)
    decreases n
  {
    if n > 0 {
      DirAt(i + 1, n - 1, if k == 0 then 0 else k - 1);
    }
  }

  lemma DirsAreSorted(n: nat)
    ensures |Dirs(0, n)| == n + 1 && Sorted(Dirs(0, n))
  {
    DirAt(0, n, 0);
    forall i, j | 0 <= i < j < |Dirs(0, n)|
      ensures Dirs(0, n)[i].name != Dirs(0, n)[j].name
      ensures IsDir(Dirs(0, n)[i]) && IsDir(Dirs(0, n)[j]) && NameLess(Dirs(0, n)[i].name, Dirs(0, n)[j].name)
    {
      DirAt(0, n, i);
      DirAt(0, n, j);
      NamesAscend(i, j);
    }
  }

  lemma EmptyDirFirst(nodes: seq<Node>, limit: int, room: nat)
    requires limit >= 2 && nodes != [] && nodes[0].Dir? && nodes[0].children == []
    ensures Below(nodes, 1, limit, "") == [] && CappedBelow(nodes, 1, limit, "", room) == []
  {
    assert Forest([], 2, limit, Extend(nodes, "")) == [];
    assert CappedForest([], 2, limit, Extend(nodes, ""), room) == [];
  }

  lemma LastDirListing(nodes: seq<Node>, limit: int)
    requires limit >= 2 && |nodes| == 1 && nodes[0].Dir? && nodes[0].children == [File("x")]
    ensures CappedForest(nodes, 1, limit, "", 1) == [EntryFor(nodes, "")]
    ensures |Entries(Forest(nodes, 1, limit, ""))| == 2
  {
    EntriesOfForest(nodes, 1, limit, "");
    EntriesOfForest([File("x")], 2, limit, Extend(nodes, ""));
    assert Below(nodes, 1, limit, "") == Forest([File("x")], 2, limit, Extend(nodes, ""));
    assert CappedBelow(nodes, 1, limit, "", 0) == [];
    assert CappedForest(nodes[1..], 1, limit, "", 0) == [];
  }

  lemma {:induction false} DirsListing(i: nat, n: nat, limit: int)
    requires limit >= 2
    ensures !HasTruncated(CappedForest(Dirs(i, n), 1, limit, "", n + 1))
    ensures |Entries(Forest(Dirs(i, n), 1, limit, ""))| == n + 2
    decreases n
  {
    var nodes := Dirs(i, n);
    if n == 0 {
      LastDirListing(nodes, limit);
    } else {
      DirsListing(i + 1, n - 1, limit);
      assert nodes[0] == Dir(Name(i), []) && nodes[1..] == Dirs(i + 1, n - 1);
      EmptyDirFirst(nodes, limit, n);
      EntriesOfForest(nodes, 1, limit, "");
      assert CappedForest(nodes, 1, limit, "", n + 1) == [EntryFor(nodes, "")] + CappedForest(nodes[1..], 1, limit, "", n);
    }
  }

  // Such a case: 200 directories, only the last of them with anything in it.
  lemma OmissionCanBeSilent(limit: int)
    requires limit >= 2
    ensures var dirs := Dirs(0, MAX_ENTRIES - 1);
      && |dirs| == MAX_ENTRIES && Sorted(dirs)
      && !HasTruncated(Walk(Dir("r", dirs), limit))
      && |Entries(Inside(Dir("r", dirs), 1, limit, ""))| == MAX_ENTRIES + 1
  {
    DirsAreSorted(MAX_ENTRIES - 1);
    DirsListing(0, MAX_ENTRIES - 1, limit);
  }

  // ---- The walk as the tool runs it -------------------------------------------------------------

  lemma {:induction false} CappedWithinRoom(nodes: seq<Node>, depth: int, limit: int, prefix: string, room: nat)
    requires depth <= limit
    ensures |Entries(CappedForest(nodes, depth, limit, prefix, room))| <= room
  {
    ForestIsCut(nodes, depth, limit, prefix, room);
    UsedRoom(Forest(nodes, depth, limit, prefix), CappedForest(nodes, depth, limit, prefix, room), room);
  }

  lemma CappedEntries(nodes: seq<Node>, depth: int, limit: int, prefix: string, room: nat)
    requires depth <= limit && nodes != [] && room > 0
    ensures var below := CappedBelow(nodes, depth, limit, prefix, room - 1);
      var rest := CappedForest(nodes[1..], depth, limit, prefix, Less(room - 1, |Entries(below)|));
      && CappedForest(nodes, depth, limit, prefix, room) == [EntryFor(nodes, prefix)] + below + rest
      && |Entries(CappedForest(nodes, depth, limit, prefix, room))| == 1 + |Entries(below)| + |Entries(rest)|
  {
    var e := [EntryFor(nodes, prefix)];
    var below := CappedBelow(nodes, depth, limit, prefix, room - 1);
    EntriesAppend(e + below, CappedForest(nodes[1..], depth, limit, prefix, Less(room - 1, |Entries(below)|)));
    EntriesAppend(e, below);
    assert e[1..] == [];
  }

  lemma FullTruncates(nodes: seq<Node>, depth: int, limit: int, prefix: string)
    requires depth <= limit && nodes != []
    ensures CappedForest(nodes, depth, limit, prefix, 0) == [Truncated(prefix)]
    ensures Entries([Truncated(prefix)]) == []
  {
    assert [Truncated(prefix)][1..] == [];
  }

  class Walker {
    const limit: int
    var lines: seq<Line>
    var count: nat

    constructor (limit: int)
      ensures lines == [] && count == 0 && this.limit == limit
    {
      this.limit, lines, count := limit, [], 0;
    }

    method WalkDir(dir: Node, depth: int, prefix: string)
      requires IsDir(dir) && count <= MAX_ENTRIES
      modifies this
      ensures lines == old(lines) + CappedInside(dir, depth, limit, prefix, MAX_ENTRIES - old(count))
      ensures count == old(count) + |Entries(CappedInside(dir, depth, limit, prefix, MAX_ENTRIES - old(count)))|
      ensures count <= MAX_ENTRIES
      decreases limit - depth, 2
    {
      if depth > limit || count >= MAX_ENTRIES {
        return;
      }
      if dir.Unreadable? {
        lines := lines + [ReadError(prefix, dir.error)];
        assert [ReadError(prefix, dir.error)][1..] == [];
        return;
      }
      ListEntries(dir.children, depth, prefix);
    }

    // The loop over a directory's sorted entries.
    method ListEntries(entries: seq<Node>, depth: int, prefix: string)
      requires depth <= limit && count < MAX_ENTRIES
      modifies this
      ensures lines == old(lines) + CappedForest(entries, depth, limit, prefix, MAX_ENTRIES - old(count))
      ensures count == old(count) + |Entries(CappedForest(entries, depth, limit, prefix, MAX_ENTRIES - old(count)))|
      ensures count <= MAX_ENTRIES
      decreases limit - depth, 1, 1
    {
      ghost var all := CappedForest(entries, depth, limit, prefix, MAX_ENTRIES - count);
      CappedWithinRoom(entries, depth, limit, prefix, MAX_ENTRIES - count);
      var i := 0;
      assert entries[0..] == entries;
      while i < |entries|
        invariant 0 <= i <= |entries| && count <= MAX_ENTRIES
        invariant lines + CappedForest(entries[i..], depth, limit, prefix, MAX_ENTRIES - count) == old(lines) + all
        invariant count + |Entries(CappedForest(entries[i..], depth, limit, prefix, MAX_ENTRIES - count))|
               == old(count) + |Entries(all)|
      {
        if count >= MAX_ENTRIES {
          FullTruncates(entries[i..], depth, limit, prefix);
          lines := lines + [Truncated(prefix)];
          return;
        }
        assert entries[i..][1..] == entries[i + 1..];
        ListFirst(entries[i..], depth, prefix);
        i := i + 1;
      }
    }

    // One pass through that loop, seen from its end.
    method ListFirst(nodes: seq<Node>, depth: int, prefix: string)
      requires nodes != [] && depth <= limit && count < MAX_ENTRIES
      modifies this
      ensures count <= MAX_ENTRIES
      ensures lines + CappedForest(nodes[1..], depth, limit, prefix, MAX_ENTRIES - count)
           == old(lines) + CappedForest(nodes, depth, limit, prefix, MAX_ENTRIES - old(count))
      ensures count + |Entries(CappedForest(nodes[1..], depth, limit, prefix, MAX_ENTRIES - count))|
           == old(count) + |Entries(CappedForest(nodes, depth, limit, prefix, MAX_ENTRIES - old(count)))|
      decreases limit - depth, 1, 0
    {
      ghost var before, room := lines, MAX_ENTRIES - count;
      CappedEntries(nodes, depth, limit, prefix, room);
      ListEntry(nodes, depth, prefix);
      Assoc(before, [EntryFor(nodes, prefix)] + CappedBelow(nodes, depth, limit, prefix, room - 1),
            CappedForest(nodes[1..], depth, limit, prefix, MAX_ENTRIES - count));
    }

    // One entry and, if it is a directory within the limit, what is below it.
    method ListEntry(nodes: seq<Node>, depth: int, prefix: string)
      requires nodes != [] && depth <= limit && count < MAX_ENTRIES
      modifies this
      ensures var below := CappedBelow(nodes, depth, limit, prefix, MAX_ENTRIES - old(count) - 1);
        && lines == old(lines) + ([EntryFor(nodes, prefix)] + below)
        && count == old(count) + 1 + |Entries(below)|
      ensures count <= MAX_ENTRIES
      decreases limit - depth, 0
    {
      var entry := nodes[0];
      lines := lines + [Entry(prefix, |nodes| == 1, entry.name, IsDir(entry))];
      count := count + 1;
      if IsDir(entry) && depth < limit {
        WalkDir(entry, depth + 1, prefix + (if |nodes| == 1 then "    " else "│   "));
      }
    }
  }

  // The tool: the path checks, then the walk from the root.
  method Invoke(parentRef: bool, target: Option<Node>, maxDepth: Option<real>) returns (out: Outcome)
    ensures out.Failed? <==> parentRef || target.None? || target.value.File?
    ensures out.Failed? ==> out.why == if parentRef then ParentRef else if target.None? then NoSuchDirectory else NotADirectory
    ensures out.Listing? ==> out.lines == Walk(target.value, DepthLimit(maxDepth))
  {
    if parentRef {
      return Failed(ParentRef);
    }
    match target {
      case None => return Failed(NoSuchDirectory);
      case Some(root) =>
        if root.File? {
          return Failed(NotADirectory);
        }
        var walker := new Walker(DepthLimit(maxDepth));
        walker.WalkDir(root, 1, "");
        return Listing(walker.lines);
    }
  }
}
