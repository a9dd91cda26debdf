/** Vocabulary shared by every component: optional values, duplicate-free
    sequences, and order-preserving removal from a sequence. */
module Prelude {

  datatype Option<+T> = None | Some(value: T) {
    function OrElse(other: Option<T>): Option<T> {
      if Some? then this else other
    }
  }

  ghost predicate NoDup<T(!new)>(s: seq<T>) {
    forall i, j :: 0 <= i < j < |s| ==> s[i] != s[j]
  }

  ghost predicate Disjoint<T(!new)>(s: seq<T>, t: seq<T>) {
    forall x :: x in s ==> x !in t
  }

  function Listed<T(==)>(s: seq<T>): set<T> {
    set x | x in s
  }

  /** `s` with the members of `gone` dropped and the order of the rest kept. */
  ghost function Without<T>(s: seq<T>, gone: set<T>): seq<T> {
    if s == [] then []
    else
      var front := Without(s[..|s| - 1], gone);
      var last := s[|s| - 1];
      if last in gone then front else front + [last]
  }

  lemma {:induction false} WithoutMembers<T>(s: seq<T>, gone: set<T>)
    ensures forall x :: x in Without(s, gone) <==> x in s && x !in gone
  {
    if s != [] {
      WithoutMembers(s[..|s| - 1], gone);
      assert s == s[..|s| - 1] + [s[|s| - 1]];
    }
  }

  lemma {:induction false} WithoutConcat<T>(s: seq<T>, t: seq<T>, gone: set<T>)
    ensures Without(s + t, gone) == Without(s, gone) + Without(t, gone)
  {
    if t == [] {
      assert s + t == s;
    } else {
      WithoutConcat(s, t[..|t| - 1], gone);
      assert (s + t)[..|s + t| - 1] == s + t[..|t| - 1];
    }
  }

  lemma {:induction false} WithoutNothing<T>(s: seq<T>, gone: set<T>)
    requires forall x :: x in s ==> x !in gone
    ensures Without(s, gone) == s
  {
    if s != [] {
      WithoutNothing(s[..|s| - 1], gone);
      assert s == s[..|s| - 1] + [s[|s| - 1]];
    }
  }

  lemma {:induction false} WithoutTwice<T>(s: seq<T>, a: set<T>, b: set<T>)
    ensures Without(Without(s, a), b) == Without(s, a + b)
  {
    if s != [] {
      var front := s[..|s| - 1];
      WithoutTwice(front, a, b);
      if s[|s| - 1] !in a {
        WithoutConcat(Without(front, a), [s[|s| - 1]], b);
      }
    }
  }

  lemma {:induction false} WithoutNoDup<T(!new)>(s: seq<T>, gone: set<T>)
    requires NoDup(s)
    ensures NoDup(Without(s, gone))
  {
    if s != [] {
      WithoutNoDup(s[..|s| - 1], gone);
      WithoutMembers(s[..|s| - 1], gone);
    }
  }

  lemma NoDupConcat<T(!new)>(s: seq<T>, t: seq<T>)
    ensures NoDup(s + t) <==> NoDup(s) && NoDup(t) && Disjoint(s, t)
  {
    var st := s + t;
    if NoDup(st) {
      forall i, j | 0 <= i < j < |s| ensures s[i] != s[j] {
        assert st[i] != st[j];
      }
      forall i, j | 0 <= i < j < |t| ensures t[i] != t[j] {
        assert st[|s| + i] != st[|s| + j];
      }
      forall i, j | 0 <= i < |s| && 0 <= j < |t| ensures s[i] != t[j] {
        assert st[i] != st[|s| + j];
      }
    }
    if NoDup(s) && NoDup(t) && Disjoint(s, t) {
      forall i, j | 0 <= i < j < |st| ensures st[i] != st[j] {
        if i < |s| <= j {
          assert st[i] in s && st[j] in t;
        }
      }
    }
  }
}
