/**
 * Sequences of alarm identifiers: the insertion order of a JavaScript `Map` is a
 * duplicate-free sequence, and deleting a key keeps the others in order.
 */
module Seqs {

  /** No element occurs twice. */
  ghost predicate NoDup(s: seq<string>) {
    forall i, j :: 0 <= i < j < |s| ==> s[i] != s[j]
  }

  /** The elements of `s` that belong to `keep`, in their original order. */
  function Restrict(s: seq<string>, keep: set<string>): (r: seq<string>)
    ensures |r| <= |s|
  {
    if s == [] then []
    else Restrict(s[..|s| - 1], keep) + (if s[|s| - 1] in keep then [s[|s| - 1]] else [])
  }

  /** `Restrict` keeps exactly the elements of `s` that belong to `keep`. */
  lemma {:induction false} RestrictMembers(s: seq<string>, keep: set<string>)
    ensures forall x :: x in Restrict(s, keep) <==> x in s && x in keep
  {
    if s != [] {
      var init := s[..|s| - 1];
      RestrictMembers(init, keep);
      assert s == init + [s[|s| - 1]];
    }
  }

  lemma {:induction false} RestrictNoDup(s: seq<string>, keep: set<string>)
    requires NoDup(s)
    ensures NoDup(Restrict(s, keep))
  {
    if s != [] {
      var init := s[..|s| - 1];
      assert NoDup(init) by {
        forall i, j | 0 <= i < j < |init| ensures init[i] != init[j] {
          assert init[i] == s[i] && init[j] == s[j];
        }
      }
      RestrictNoDup(init, keep);
      RestrictMembers(init, keep);
      var last := s[|s| - 1];
      assert last !in init by {
        forall i | 0 <= i < |init| ensures init[i] != last {
          assert init[i] == s[i];
        }
      }
    }
  }

  lemma {:induction false} RestrictAppend(a: seq<string>, b: seq<string>, keep: set<string>)
    ensures Restrict(a + b, keep) == Restrict(a, keep) + Restrict(b, keep)
    decreases |b|
  {
    if b == [] {
      assert a + b == a;
    } else {
      var b', last := b[..|b| - 1], b[|b| - 1];
      var tail := if last in keep then [last] else [];
      assert (a + b)[..|a + b| - 1] == a + b' && (a + b)[|a + b| - 1] == last;
      assert Restrict(a + b, keep) == Restrict(a + b', keep) + tail;
      RestrictAppend(a, b', keep);
      assert Restrict(b, keep) == Restrict(b', keep) + tail;
    }
  }

  /** Restricting to a set that holds every element changes nothing. */
  lemma RestrictAll(s: seq<string>, keep: set<string>)
    requires forall x :: x in s ==> x in keep
    ensures Restrict(s, keep) == s
  {
    RestrictAllAt(s, keep);
  }

  lemma {:induction false} RestrictAllAt(s: seq<string>, keep: set<string>)
    requires forall i :: 0 <= i < |s| ==> s[i] in keep
    ensures Restrict(s, keep) == s
  {
    if s != [] {
      RestrictAllAt(s[..|s| - 1], keep);
      assert s[..|s| - 1] + [s[|s| - 1]] == s;
    }
  }

  lemma {:induction false} RestrictRestrict(s: seq<string>, k1: set<string>, k2: set<string>)
    ensures Restrict(Restrict(s, k1), k2) == Restrict(s, k1 * k2)
  {
    if s != [] {
      var init := s[..|s| - 1];
      var last := s[|s| - 1];
      RestrictRestrict(init, k1, k2);
      RestrictAppend(Restrict(init, k1), if last in k1 then [last] else [], k2);
      if last in k1 {
        assert Restrict([last], k2) == Restrict([], k2) + (if last in k2 then [last] else []);
      }
    }
  }

  /**
   * One step of re-inserting the keys of `o` in order: removing `o[j]` from
   * the unprocessed suffix and appending it when it is kept.
   */
  lemma ReinsertStep(o: seq<string>, j: int, keep: set<string>, all: set<string>)
    requires NoDup(o) && 0 <= j < |o|
    requires forall x :: x in o ==> x in all
    ensures Restrict(o[j..] + Restrict(o[..j], keep), all - {o[j]}) + (if o[j] in keep then [o[j]] else [])
         == o[j + 1..] + Restrict(o[..j + 1], keep)
  {
    var rest := all - {o[j]};
    var done := Restrict(o[..j], keep);
    SuffixKept(o, j, rest);
    PrefixKept(o, j, keep, rest);
    RestrictAppend(o[j..], done, rest);
    RestrictSnocSlice(o, j, keep);
    Assoc(o[j + 1..], done, if o[j] in keep then [o[j]] else []);
  }

  lemma SuffixKept(o: seq<string>, j: int, rest: set<string>)
    requires NoDup(o) && 0 <= j < |o|
    requires forall x :: x in o && x != o[j] ==> x in rest
    requires o[j] !in rest
    ensures Restrict(o[j..], rest) == o[j + 1..]
  {
    var x, tail := o[j], o[j + 1..];
    forall y | y in tail ensures y in rest {
      var k :| j + 1 <= k < |o| && o[k] == y;
    }
    assert o[j..] == [x] + tail;
    DropHead(x, tail, rest);
  }

  lemma PrefixKept(o: seq<string>, j: int, keep: set<string>, rest: set<string>)
    requires NoDup(o) && 0 <= j < |o|
    requires forall x :: x in o && x != o[j] ==> x in rest
    ensures Restrict(Restrict(o[..j], keep), rest) == Restrict(o[..j], keep)
  {
    var done := Restrict(o[..j], keep);
    RestrictMembers(o[..j], keep);
    forall y | y in done ensures y in rest {
      var k :| 0 <= k < j && o[k] == y;
    }
    RestrictAll(done, rest);
  }

  lemma RestrictSnocSlice(o: seq<string>, j: int, keep: set<string>)
    requires 0 <= j < |o|
    ensures Restrict(o[..j + 1], keep) == Restrict(o[..j], keep) + (if o[j] in keep then [o[j]] else [])
  {
    assert o[..j + 1] == o[..j] + [o[j]];
    RestrictSnoc(o[..j], o[j], keep);
  }

  lemma Assoc<T>(a: seq<T>, b: seq<T>, c: seq<T>)
    ensures (a + b) + c == a + (b + c)
  {
  }

  lemma DropHead(x: string, tail: seq<string>, rest: set<string>)
    requires x !in rest
    requires forall y :: y in tail ==> y in rest
    ensures Restrict([x] + tail, rest) == tail
  {
    RestrictAll(tail, rest);
    RestrictAppend([x], tail, rest);
    assert [x][..0] == [];
    assert [] + tail == tail;
  }

  lemma RestrictSnoc(s: seq<string>, x: string, keep: set<string>)
    ensures Restrict(s + [x], keep) == Restrict(s, keep) + (if x in keep then [x] else [])
  {
    assert (s + [x])[..|s|] == s;
  }

  /** Only membership of the elements of `s` matters to `Restrict`. */
  lemma {:induction false} RestrictSameOn(s: seq<string>, k1: set<string>, k2: set<string>)
    requires forall x :: x in s ==> (x in k1 <==> x in k2)
    ensures Restrict(s, k1) == Restrict(s, k2)
  {
    if s != [] {
      var init := s[..|s| - 1];
      assert forall x :: x in init ==> x in s;
      RestrictSameOn(init, k1, k2);
    }
  }

  lemma {:induction false} RestrictEmpty(s: seq<string>)
    ensures Restrict(s, {}) == []
  {
    if s != [] {
      RestrictEmpty(s[..|s| - 1]);
    }
  }

  /** Appending a key and restricting it away again gives back a list whose keys are all kept. */
  lemma RestrictSnocAway(s: seq<string>, x: string, keep: set<string>)
    requires x !in keep
    requires forall y :: y in s ==> y in keep
    ensures Restrict(s + [x], keep) == s
  {
    RestrictSnoc(s, x, keep);
    RestrictAll(s, keep);
  }

  /** Adding a fresh key to a map and removing it again gives back the map. */
  lemma UpdateRemove<K, V>(m: map<K, V>, k: K, v: V)
    requires k !in m
    ensures m[k := v] - {k} == m
  {
  }
}
