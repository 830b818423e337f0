// Small vocabulary shared by the other modules.
module Basics {
  datatype Option<+T> = None | Some(value: T)

  // Concatenation of a sequence of sequences.
  function Flatten<T>(ss: seq<seq<T>>): (r: seq<T>) {
    if ss == [] then [] else ss[0] + Flatten(ss[1..])
  }

  lemma FlattenCons<T>(x: seq<T>, rest: seq<seq<T>>)
    ensures Flatten([x] + rest) == x + Flatten(rest)
  {
    assert ([x] + rest)[1..] == rest;
  }

  lemma Assoc<T>(a: seq<T>, b: seq<T>, c: seq<T>)
    ensures a + (b + c) == a + b + c
  {
  }

  lemma {:induction false} FlattenAppend<T>(a: seq<seq<T>>, b: seq<seq<T>>)
    ensures Flatten(a + b) == Flatten(a) + Flatten(b)
  {
    if a == [] {
      assert a + b == b;
    } else {
      assert (a + b)[1..] == a[1..] + b;
      FlattenAppend(a[1..], b);
    }
  }

  lemma FlattenSnoc<T>(a: seq<seq<T>>, x: seq<T>)
    ensures Flatten(a + [x]) == Flatten(a) + x
  {
    FlattenAppend(a, [x]);
    assert [x][1..] == [];
  }

  // Some member of a set, for loops whose order is left open.
  method Pick<T>(s: set<T>) returns (x: T)
    requires s != {}
    ensures x in s
  {
    x :| x in s;
  }

  function ToSet<T>(s: seq<T>): set<T> {
    set x | x in s
  }

  function Min(a: int, b: int): int {
    if a <= b then a else b
  }

  // A separator ends a prefix that does not contain it, wherever else it occurs.
  lemma PrefixEndsAtSeparator<T>(a: seq<T>, sep: T, rest: seq<T>)
    requires sep !in a
    ensures (a + [sep] + rest)[|a|] == sep && forall j | 0 <= j < |a| :: (a + [sep] + rest)[j] != sep
    ensures (a + [sep] + rest)[..|a|] == a && (a + [sep] + rest)[|a| + 1..] == rest
  {
    forall j | 0 <= j < |a| ensures (a + [sep] + rest)[j] != sep {
      assert a[j] in a;
    }
  }
}
