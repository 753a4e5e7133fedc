/** Order-preserving filtering and flattening of sequences, shared by the stream stages. */
module Seqs {

  /** `s.filter(f)`: the elements of s satisfying f, in their original order. */
  function Filter<T>(s: seq<T>, f: T -> bool): (r: seq<T>)
    ensures |r| <= |s|
    ensures forall i :: 0 <= i < |r| ==> f(r[i])
  {
    if |s| == 0 then []
    else if f(s[0]) then [s[0]] + Filter(s[1..], f)
    else Filter(s[1..], f)
  }

  lemma {:induction false} FilterMembership<T>(s: seq<T>, f: T -> bool)
    ensures forall x :: x in Filter(s, f) <==> x in s && f(x)
  {
    if |s| > 0 {
      FilterMembership(s[1..], f);
      assert s == [s[0]] + s[1..];
    }
  }

  lemma {:induction false} FilterConcat<T>(a: seq<T>, b: seq<T>, f: T -> bool)
    ensures Filter(a + b, f) == Filter(a, f) + Filter(b, f)
  {
    if |a| == 0 {
      assert a + b == b;
    } else {
      assert (a + b)[1..] == a[1..] + b;
      FilterConcat(a[1..], b, f);
    }
  }

  lemma {:induction false} FilterAllPass<T>(s: seq<T>, f: T -> bool)
    requires forall i :: 0 <= i < |s| ==> f(s[i])
    ensures Filter(s, f) == s
  {
    if |s| > 0 {
      FilterAllPass(s[1..], f);
    }
  }

  lemma {:induction false} NothingPasses<T>(s: seq<T>, f: T -> bool)
    requires forall i :: 0 <= i < |s| ==> !f(s[i])
    ensures Filter(s, f) == []
  {
    if |s| > 0 {
      NothingPasses(s[1..], f);
    }
  }

  /** Concatenation of a sequence of sequences. */
  function Flatten<T>(ss: seq<seq<T>>): seq<T>
  {
    if |ss| == 0 then [] else ss[0] + Flatten(ss[1..])
  }

  lemma {:induction false} FlattenConcat<T>(a: seq<seq<T>>, b: seq<seq<T>>)
    ensures Flatten(a + b) == Flatten(a) + Flatten(b)
  {
    if |a| == 0 {
      assert a + b == b;
    } else {
      assert (a + b)[1..] == a[1..] + b;
      FlattenConcat(a[1..], b);
    }
  }

  /** The number of elements of s satisfying f. */
  function Count<T>(s: seq<T>, f: T -> bool): nat
  {
    if |s| == 0 then 0 else (if f(s[0]) then 1 else 0) + Count(s[1..], f)
  }

  lemma {:induction false} CountIsFilterLength<T>(s: seq<T>, f: T -> bool)
    ensures Count(s, f) == |Filter(s, f)|
  {
    if |s| > 0 {
      CountIsFilterLength(s[1..], f);
    }
  }

  /** A Map filled by `forEach((e) => m.set(key(e), e))`: later entries overwrite earlier ones. */
  function IndexBy<T>(entries: seq<T>, key: T -> string): map<string, T>
  {
    if |entries| == 0 then map[]
    else IndexBy(entries[..|entries| - 1], key)[key(entries[|entries| - 1]) := entries[|entries| - 1]]
  }

  /** The keys are exactly the keys of the entries, and each maps to the last entry with that key. */
  lemma {:induction false} IndexByLastWins<T>(entries: seq<T>, key: T -> string, k: string)
    ensures k in IndexBy(entries, key) <==> exists i :: 0 <= i < |entries| && key(entries[i]) == k
    ensures k in IndexBy(entries, key) ==>
              exists j :: 0 <= j < |entries| && IndexBy(entries, key)[k] == entries[j] && key(entries[j]) == k &&
                          forall i :: j < i < |entries| ==> key(entries[i]) != k
  {
    if |entries| > 0 {
      var n := |entries| - 1;
      var prefix := entries[..n];
      IndexByLastWins(prefix, key, k);
      if key(entries[n]) != k {
        if k in IndexBy(prefix, key) {
          var j :| 0 <= j < |prefix| && IndexBy(prefix, key)[k] == prefix[j] && key(prefix[j]) == k &&
                   forall i :: j < i < |prefix| ==> key(prefix[i]) != k;
          assert entries[j] == prefix[j];
        }
        if exists i :: 0 <= i < |entries| && key(entries[i]) == k {
          var i :| 0 <= i < |entries| && key(entries[i]) == k;
          assert prefix[i] == entries[i];
        }
      }
    }
  }

  lemma IndexByValueIsEntry<T>(entries: seq<T>, key: T -> string, k: string)
    requires k in IndexBy(entries, key)
    ensures IndexBy(entries, key)[k] in entries
    ensures key(IndexBy(entries, key)[k]) == k
  {
    IndexByLastWins(entries, key, k);
  }
}
