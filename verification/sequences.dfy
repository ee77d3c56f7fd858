/** Removing elements from sequences, and strictly increasing sequences. */
module Sequences {

  /** The elements of `s` outside `gone`, in order. */
  function Without<T(==)>(s: seq<T>, gone: set<T>): seq<T> {
    if s == [] then [] else (if s[0] in gone then [] else [s[0]]) + Without(s[1..], gone)
  }

  /** The elements of `s` inside `kept`, in order. */
  function Within<T(==)>(s: seq<T>, kept: set<T>): seq<T> {
    if s == [] then [] else (if s[0] in kept then [s[0]] else []) + Within(s[1..], kept)
  }

  ghost predicate Increasing(s: seq<nat>) {
    forall i, j :: 0 <= i < j < |s| ==> s[i] < s[j]
  }

  lemma {:induction false} WithoutConcat<T>(a: seq<T>, b: seq<T>, gone: set<T>)
    ensures Without(a + b, gone) == Without(a, gone) + Without(b, gone)
  {
    if a == [] {
      assert a + b == b;
    } else {
      assert (a + b)[0] == a[0] && (a + b)[1..] == a[1..] + b;
      WithoutConcat(a[1..], b, gone);
    }
  }

  lemma {:induction false} WithoutNothing<T>(s: seq<T>, gone: set<T>)
    requires forall x :: x in s ==> x !in gone
    ensures Without(s, gone) == s
  {
    if s != [] {
      WithoutNothing(s[1..], gone);
    }
  }

  lemma {:induction false} WithoutTwice<T>(s: seq<T>, gone: set<T>, more: set<T>)
    ensures Without(s, gone + more) == Without(Without(s, gone), more)
  {
    if s != [] {
      WithoutTwice(s[1..], gone, more);
      WithoutConcat(if s[0] in gone then [] else [s[0]], Without(s[1..], gone), more);
      assert Without([s[0]], more) == if s[0] in more then [] else [s[0]];
    }
  }

  lemma {:induction false} WithoutMembers<T>(s: seq<T>, gone: set<T>)
    ensures forall x :: x in Without(s, gone) <==> x in s && x !in gone
  {
    if s != [] {
      WithoutMembers(s[1..], gone);
    }
  }

  lemma {:induction false} WithoutIncreasing(s: seq<nat>, gone: set<nat>)
    requires Increasing(s)
    ensures Increasing(Without(s, gone))
  {
    if s != [] {
      WithoutIncreasing(s[1..], gone);
      WithoutMembers(s[1..], gone);
      var rest := Without(s[1..], gone);
      assert forall j :: 0 <= j < |rest| ==> rest[j] in s[1..];
      assert forall x :: x in s[1..] ==> s[0] < x;
    }
  }

  lemma {:induction false} WithoutAndWithin<T>(s: seq<T>, gone: set<T>)
    ensures |Without(s, gone)| + |Within(s, gone)| == |s|
  {
    if s != [] {
      WithoutAndWithin(s[1..], gone);
    }
  }

  /** An increasing sequence keeps its parts disjoint. */
  lemma IncreasingSplits(a: seq<nat>, b: seq<nat>)
    requires Increasing(a + b)
    ensures Increasing(a) && Increasing(b)
    ensures forall x, y :: x in a && y in b ==> x < y
  {
    assert forall i :: 0 <= i < |a| ==> (a + b)[i] == a[i];
    assert forall i :: 0 <= i < |b| ==> (a + b)[|a| + i] == b[i];
    forall x, y | x in a && y in b ensures x < y {
      var i :| 0 <= i < |a| && a[i] == x;
      var j :| 0 <= j < |b| && b[j] == y;
      assert (a + b)[i] < (a + b)[|a| + j];
    }
    forall i, j | 0 <= i < j < |b| ensures b[i] < b[j] {
      assert (a + b)[|a| + i] < (a + b)[|a| + j];
    }
    forall i, j | 0 <= i < j < |a| ensures a[i] < a[j] {
      assert (a + b)[i] < (a + b)[j];
    }
  }

  /** Taking one element out of the middle of an increasing sequence. */
  lemma WithoutMiddle(a: seq<nat>, x: nat, b: seq<nat>)
    requires Increasing(a + [x] + b)
    ensures Without(a + [x] + b, {x}) == a + b
  {
    assert Without(a + [x] + b, {x}) == Without(a, {x}) + Without([x], {x}) + Without(b, {x}) by {
      WithoutConcat(a + [x], b, {x});
      WithoutConcat(a, [x], {x});
    }
    assert Without([x], {x}) == [];
    assert Without(a, {x}) == a && Without(b, {x}) == b by {
      var s := a + [x] + b;
      assert s[|a|] == x;
      forall y | y in a ensures y != x {
        var i :| 0 <= i < |a| && a[i] == y;
        assert s[i] == y;
      }
      forall y | y in b ensures y != x {
        var i :| 0 <= i < |b| && b[i] == y;
        assert s[|a| + 1 + i] == y;
      }
      WithoutNothing(a, {x});
      WithoutNothing(b, {x});
    }
  }

  lemma WithoutOneBehind(head: seq<nat>, front: seq<nat>, x: nat, back: seq<nat>)
    requires Increasing(head + (front + [x] + back))
    ensures Without(head + (front + [x] + back), {x}) == head + (front + back)
    ensures x in head + (front + [x] + back)
  {
    assert head + (front + [x] + back) == (head + front) + [x] + back;
    assert head + (front + back) == (head + front) + back;
    WithoutMiddle(head + front, x, back);
    assert (head + (front + [x] + back))[|head| + |front|] == x;
  }

  /** Taking a whole tail off an increasing sequence. */
  lemma WithoutTail(a: seq<nat>, b: seq<nat>)
    requires Increasing(a + b)
    ensures Without(a + b, set x | x in b) == a
  {
    var gone := set x | x in b;
    IncreasingSplits(a, b);
    WithoutConcat(a, b, gone);
    WithoutNothing(a, gone);
    WithoutMembers(b, gone);
    if Without(b, gone) != [] {
      assert Without(b, gone)[0] in Without(b, gone);
    }
  }

  lemma IncreasingExtends(s: seq<nat>, x: nat)
    requires Increasing(s) && forall y :: y in s ==> y < x
    ensures Increasing(s + [x])
  {
    var t := s + [x];
    forall i, j | 0 <= i < j < |t| ensures t[i] < t[j] {
      assert t[i] == s[i] && s[i] in s;
    }
  }

  /** Moving a boundary between neighbouring parts of a concatenation. */
  lemma Regroup<T>(a: seq<T>, b: seq<T>, c: seq<T>)
    ensures a + (b + c) == (a + b) + c
    ensures a + [] == a && [] + a == a
  {
  }
}
