/** Sequence helpers: the order-preserving de-duplication that
  * `[...new Set(xs)]` performs, and concatenation of a list of lists. */
module Seqs {
  predicate NoDups<T(==,!new)>(xs: seq<T>)
  {
    forall i, j :: 0 <= i < j < |xs| ==> xs[i] != xs[j]
  }

  /** `[...new Set(xs)]`: every value once, at the position of its first
    * occurrence, in the order those first occurrences appear. What it
    * keeps is stated by DedupeSpec, DedupeOfNoDups and DedupeAppend. */
  function Dedupe<T(==,!new)>(xs: seq<T>): seq<T>
  {
    if |xs| == 0 then []
    else
      var p := Dedupe(xs[..|xs| - 1]);
      var last := xs[|xs| - 1];
      if last in p then p else p + [last]
  }

  /** The elements of `ys` that are not in `seen`, in order. */
  function Unseen<T(==,!new)>(ys: seq<T>, seen: seq<T>): seq<T>
  {
    if |ys| == 0 then []
    else
      var p := Unseen(ys[..|ys| - 1], seen);
      var last := ys[|ys| - 1];
      if last in seen then p else p + [last]
  }

  lemma DedupeSnoc<T(!new)>(zs: seq<T>, y: T)
    ensures Dedupe(zs + [y]) == if y in Dedupe(zs) then Dedupe(zs) else Dedupe(zs) + [y]
  {
    assert (zs + [y])[..|zs + [y]| - 1] == zs;
  }

  /** De-duplicating one element further along a sequence. */
  lemma DedupePrefixStep<T(!new)>(xs: seq<T>, i: nat)
    requires i < |xs|
    ensures Dedupe(xs[..i + 1]) == if xs[i] in Dedupe(xs[..i]) then Dedupe(xs[..i]) else Dedupe(xs[..i]) + [xs[i]]
  {
    assert xs[..i + 1][..i] == xs[..i];
  }

  lemma UnseenSnoc<T(!new)>(zs: seq<T>, y: T, seen: seq<T>)
    ensures Unseen(zs + [y], seen) == if y in seen then Unseen(zs, seen) else Unseen(zs, seen) + [y]
  {
    assert (zs + [y])[..|zs + [y]| - 1] == zs;
  }

  /** The de-duplicated list has no repeats, is no longer than its input
    * and holds exactly the input's values. */
  lemma {:induction false} DedupeSpec<T(!new)>(xs: seq<T>)
    ensures NoDups(Dedupe(xs))
    ensures |Dedupe(xs)| <= |xs|
    ensures forall x :: x in Dedupe(xs) <==> x in xs
  {
    if |xs| > 0 {
      var xs', y := xs[..|xs| - 1], xs[|xs| - 1];
      assert xs == xs' + [y];
      DedupeSpec(xs');
      DedupeSnoc(xs', y);
    }
  }

  lemma {:induction false} UnseenSpec<T(!new)>(ys: seq<T>, seen: seq<T>)
    ensures |Unseen(ys, seen)| <= |ys|
    ensures forall x :: x in Unseen(ys, seen) <==> x in ys && x !in seen
  {
    if |ys| > 0 {
      var ys', y := ys[..|ys| - 1], ys[|ys| - 1];
      assert ys == ys' + [y];
      UnseenSpec(ys', seen);
      UnseenSnoc(ys', y, seen);
    }
  }

  /** A list that already has no repeats is left as it is. */
  lemma {:induction false} DedupeOfNoDups<T(!new)>(xs: seq<T>)
    requires NoDups(xs)
    ensures Dedupe(xs) == xs
  {
    if |xs| > 0 {
      var xs', y := xs[..|xs| - 1], xs[|xs| - 1];
      assert xs == xs' + [y];
      DedupeOfNoDups(xs');
      DedupeSnoc(xs', y);
      DedupeSpec(xs');
    }
  }

  /** Running the de-duplication twice changes nothing. */
  lemma DedupeIdempotent<T(!new)>(xs: seq<T>)
    ensures Dedupe(Dedupe(xs)) == Dedupe(xs)
  {
    DedupeSpec(xs);
    DedupeOfNoDups(Dedupe(xs));
  }

  /** De-duplicating a concatenation keeps the de-duplicated first part as a
    * prefix and then adds, de-duplicated and in order, the values of the
    * second part that the first did not have. */
  lemma {:induction false} DedupeAppend<T(!new)>(xs: seq<T>, ys: seq<T>)
    ensures Dedupe(xs + ys) == Dedupe(xs) + Dedupe(Unseen(ys, xs))
  {
    if |ys| == 0 {
      assert xs + ys == xs;
    } else {
      var ys', y := ys[..|ys| - 1], ys[|ys| - 1];
      assert ys == ys' + [y];
      DedupeAppend(xs, ys');
      DedupeAppendStep(xs, ys', y);
    }
  }

  lemma DedupeAppendStep<T(!new)>(xs: seq<T>, ys: seq<T>, y: T)
    requires Dedupe(xs + ys) == Dedupe(xs) + Dedupe(Unseen(ys, xs))
    ensures Dedupe(xs + (ys + [y])) == Dedupe(xs) + Dedupe(Unseen(ys + [y], xs))
  {
    assert xs + (ys + [y]) == (xs + ys) + [y];
    UnseenSnoc(ys, y, xs);
    if y in xs {
      DedupeSnocSeen(xs + ys, y);
    } else {
      DedupeAppendNew(xs, ys, y);
    }
  }

  lemma DedupeSnocSeen<T(!new)>(zs: seq<T>, y: T)
    requires y in zs
    ensures Dedupe(zs + [y]) == Dedupe(zs)
  {
    DedupeSnoc(zs, y);
    DedupeMember(zs, y);
  }

  lemma DedupeAppendNew<T(!new)>(xs: seq<T>, ys: seq<T>, y: T)
    requires Dedupe(xs + ys) == Dedupe(xs) + Dedupe(Unseen(ys, xs))
    requires y !in xs
    ensures Dedupe((xs + ys) + [y]) == Dedupe(xs) + Dedupe(Unseen(ys, xs) + [y])
  {
    var u := Unseen(ys, xs);
    DedupeSnoc(xs + ys, y);
    DedupeSnoc(u, y);
    DedupeMember(xs + ys, y);
    DedupeMember(u, y);
    UnseenMember(ys, xs, y);
    if y !in u {
      assert Dedupe(xs) + Dedupe(u) + [y] == Dedupe(xs) + (Dedupe(u) + [y]);
    }
  }

  lemma DedupeMember<T(!new)>(xs: seq<T>, x: T)
    ensures x in Dedupe(xs) <==> x in xs
  {
    DedupeSpec(xs);
  }

  lemma UnseenMember<T(!new)>(ys: seq<T>, seen: seq<T>, x: T)
    ensures x in Unseen(ys, seen) <==> x in ys && x !in seen
  {
    UnseenSpec(ys, seen);
  }

  /** The first value of a non-empty list stays first. */
  lemma {:induction false} DedupeFirst<T(!new)>(xs: seq<T>)
    requires |xs| > 0
    ensures |Dedupe(xs)| > 0 && Dedupe(xs)[0] == xs[0]
  {
    if |xs| > 1 {
      var xs', y := xs[..|xs| - 1], xs[|xs| - 1];
      assert xs == xs' + [y];
      DedupeFirst(xs');
      DedupeSnoc(xs', y);
    }
  }

  lemma AppendAssoc<T>(a: seq<T>, b: seq<T>, c: seq<T>, d: seq<T>, e: seq<T>)
    ensures a + b + c + d + e == a + (b + c + d + e)
  {
  }

  lemma AppendAssoc3<T>(a: seq<T>, b: seq<T>, c: seq<T>)
    ensures a + b + c == a + (b + c)
  {
  }

  function Flatten<T>(xss: seq<seq<T>>): seq<T>
  {
    if |xss| == 0 then [] else Flatten(xss[..|xss| - 1]) + xss[|xss| - 1]
  }

  lemma FlattenSnoc<T>(xss: seq<seq<T>>, xs: seq<T>)
    ensures Flatten(xss + [xs]) == Flatten(xss) + xs
  {
    assert (xss + [xs])[..|xss + [xs]| - 1] == xss;
  }

  lemma TakeSnoc<T>(xs: seq<T>, i: nat)
    requires i < |xs|
    ensures xs[..i + 1] == xs[..i] + [xs[i]]
  {
  }

  /** `xs.filter(keep)`. */
  function Filter<T>(xs: seq<T>, keep: T -> bool): seq<T>
  {
    if |xs| == 0 then []
    else
      var p := Filter(xs[..|xs| - 1], keep);
      if keep(xs[|xs| - 1]) then p + [xs[|xs| - 1]] else p
  }

  lemma FilterSnoc<T>(xs: seq<T>, x: T, keep: T -> bool)
    ensures Filter(xs + [x], keep) == if keep(x) then Filter(xs, keep) + [x] else Filter(xs, keep)
  {
    assert (xs + [x])[..|xs + [x]| - 1] == xs;
  }

  /** Filtering one element further along a sequence. */
  lemma FilterPrefixStep<T>(xs: seq<T>, j: nat, keep: T -> bool)
    requires j < |xs|
    ensures Filter(xs[..j + 1], keep) == if keep(xs[j]) then Filter(xs[..j], keep) + [xs[j]] else Filter(xs[..j], keep)
  {
    TakeSnoc(xs, j);
    FilterSnoc(xs[..j], xs[j], keep);
  }

  /** The filter keeps exactly the elements that pass, never more of them
    * than there were. */
  lemma {:induction false} FilterSpec<T>(xs: seq<T>, keep: T -> bool)
    ensures |Filter(xs, keep)| <= |xs|
    ensures forall x :: x in Filter(xs, keep) <==> x in xs && keep(x)
  {
    if |xs| > 0 {
      var xs', y := xs[..|xs| - 1], xs[|xs| - 1];
      assert xs == xs' + [y];
      FilterSpec(xs', keep);
    }
  }

  /** Nothing passes a filter that rejects every element. */
  lemma {:induction false} FilterNone<T>(xs: seq<T>, keep: T -> bool)
    requires forall x :: x in xs ==> !keep(x)
    ensures Filter(xs, keep) == []
  {
    if |xs| > 0 {
      assert xs[|xs| - 1] in xs;
      FilterNone(xs[..|xs| - 1], keep);
    }
  }

  /** `(a + b + c)[|a|..]` is what follows `a`. */
  lemma DropFront<T>(a: seq<T>, b: seq<T>, c: seq<T>)
    ensures (a + b + c)[|a|..] == b + c
  {
  }

  /** A filter drops at least the elements at the given indices that fail. */
  lemma {:induction false} FilterCount<T>(xs: seq<T>, keep: T -> bool, dropped: set<nat>)
    requires forall i :: i in dropped ==> i < |xs| && !keep(xs[i])
    ensures |Filter(xs, keep)| + |dropped| <= |xs|
  {
    if |xs| > 0 {
      var n := |xs| - 1;
      var rest := dropped - {n};
      assert forall i :: i in rest ==> i < n && xs[..n][i] == xs[i];
      FilterCount(xs[..n], keep, rest);
    } else {
      assert dropped == {};
    }
  }
}
