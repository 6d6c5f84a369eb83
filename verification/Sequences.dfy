/** Sequence vocabulary shared by the models. */
module Sequences {

  datatype Option<+T> = None | Some(value: T)

  ghost predicate Distinct<T>(s: seq<T>) {
    forall i, j :: 0 <= i < j < |s| ==> s[i] != s[j]
  }

  /** The elements of `ids` that satisfy `keep`, in order. */
  function Where(ids: seq<nat>, keep: nat -> bool): seq<nat> {
    if ids == [] then []
    else if keep(ids[0]) then [ids[0]] + Where(ids[1..], keep)
    else Where(ids[1..], keep)
  }

  lemma {:induction false} WhereMembers(ids: seq<nat>, keep: nat -> bool)
    ensures forall id :: id in Where(ids, keep) <==> id in ids && keep(id)
  {
    if ids == [] {
    } else {
      WhereMembers(ids[1..], keep);
    }
  }

  /** The elements of `ids` that are not in `gone`, in order. */
  function Without(ids: seq<nat>, gone: seq<nat>): (r: seq<nat>)
    ensures forall id :: id in r <==> id in ids && id !in gone
  {
    WhereMembers(ids, (id: nat) => id !in gone);
    Where(ids, (id: nat) => id !in gone)
  }

  lemma {:induction false} WhereKeepsDistinct(ids: seq<nat>, keep: nat -> bool)
    requires Distinct(ids)
    ensures Distinct(Where(ids, keep))
  {
    if ids == [] {
    } else {
      WhereMembers(ids[1..], keep);
      WhereKeepsDistinct(ids[1..], keep);
    }
  }

  /** Filtering keeps a strictly increasing sequence strictly increasing. */
  ghost predicate Increasing(ids: seq<nat>) {
    forall i, j :: 0 <= i < j < |ids| ==> ids[i] < ids[j]
  }

  lemma ConsIncreasing(head: nat, rest: seq<nat>)
    requires Increasing(rest) && forall id :: id in rest ==> head < id
    ensures Increasing([head] + rest)
  {
    assert forall i :: 0 <= i < |rest| ==> rest[i] in rest;
  }

  lemma {:induction false} WhereKeepsIncreasing(ids: seq<nat>, keep: nat -> bool)
    requires Increasing(ids)
    ensures Increasing(Where(ids, keep))
  {
    if ids == [] {
    } else {
      WhereMembers(ids[1..], keep);
      WhereKeepsIncreasing(ids[1..], keep);
      if keep(ids[0]) {
        ConsIncreasing(ids[0], Where(ids[1..], keep));
      }
    }
  }

  /** How often `id` occurs in `ids`. */
  ghost function Occurrences(ids: seq<nat>, id: nat): nat {
    if ids == [] then 0
    else Occurrences(ids[1..], id) + if ids[0] == id then 1 else 0
  }

  lemma {:induction false} DistinctOccurrences(ids: seq<nat>, id: nat)
    requires Distinct(ids)
    ensures Occurrences(ids, id) == if id in ids then 1 else 0
  {
    if ids == [] {
    } else {
      DistinctOccurrences(ids[1..], id);
    }
  }

  /** All elements of all parts, in order. */
  function Flatten<T>(parts: seq<seq<T>>): seq<T> {
    if parts == [] then [] else parts[0] + Flatten(parts[1..])
  }

  lemma {:induction false} FlattenAppend<T>(a: seq<seq<T>>, b: seq<seq<T>>)
    ensures Flatten(a + b) == Flatten(a) + Flatten(b)
  {
    if a == [] {
      assert a + b == b;
    } else {
      calc {
        Flatten(a + b);
        { assert (a + b)[0] == a[0]; assert (a + b)[1..] == a[1..] + b; }
        a[0] + Flatten(a[1..] + b);
        { FlattenAppend(a[1..], b); }
        a[0] + (Flatten(a[1..]) + Flatten(b));
        Flatten(a) + Flatten(b);
      }
    }
  }

  lemma FlattenSnoc<T>(a: seq<seq<T>>, last: seq<T>)
    ensures Flatten(a + [last]) == Flatten(a) + last
  {
    FlattenAppend(a, [last]);
    assert Flatten([last]) == last;
  }
}
