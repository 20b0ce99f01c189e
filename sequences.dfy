/**
 * The Python list operations the scanner relies on, stated on sequences:
 * `list.remove` and the "append unless already present" loop that builds a
 * list without repeats, with `Count` as a helper for stating their laws.
 */
module Sequences {

  /** No element occurs twice. */
  ghost predicate NoDuplicates<T>(s: seq<T>) {
    forall i, j :: 0 <= i < j < |s| ==> s[i] != s[j]
  }

  /** The index of the first occurrence of `x`: the position `list.remove(x)` deletes at. */
  function FirstIndex<T(==)>(s: seq<T>, x: T): (i: nat)
    requires x in s
    ensures i < |s| && s[i] == x && x !in s[..i]
  {
    if s[0] == x then 0
    else
      var j := FirstIndex(s[1..], x);
      assert s[..j + 1] == [s[0]] + s[1..][..j];
      j + 1
  }

  /** An index holding `x` with no `x` before it is the first index. */
  lemma FirstIndexUnique<T>(s: seq<T>, x: T, i: nat)
    requires i < |s| && s[i] == x && x !in s[..i]
    ensures FirstIndex(s, x) == i
  {
  }

  /** Extending a sequence at the end does not move the first occurrence of an element it already holds. */
  lemma FirstIndexAppend<T>(s: seq<T>, t: seq<T>, x: T)
    requires x in s
    ensures FirstIndex(s + t, x) == FirstIndex(s, x)
  {
    var i := FirstIndex(s, x);
    assert (s + t)[..i] == s[..i];
    FirstIndexUnique(s + t, x, i);
  }

  /** Prepending elements other than `x` shifts its first occurrence by their number. */
  lemma FirstIndexPrepend<T>(p: seq<T>, s: seq<T>, x: T)
    requires x !in p && x in s
    ensures FirstIndex(p + s, x) == |p| + FirstIndex(s, x)
  {
    var i := FirstIndex(s, x);
    assert (p + s)[..|p| + i] == p + s[..i];
    FirstIndexUnique(p + s, x, |p| + i);
  }

  /**
   * Python's `list.remove(x)`: drops the first occurrence of `x` and keeps
   * the order of everything else. The scanner only calls it after checking
   * that `x` is present, so `list.remove`'s ValueError cannot arise.
   */
  function RemoveFirst<T(==)>(s: seq<T>, x: T): (r: seq<T>)
    requires x in s
    ensures |r| == |s| - 1
    ensures forall y :: y in r ==> y in s
    ensures forall y :: y in s && y != x ==> y in r
  {
    var i := FirstIndex(s, x);
    s[..i] + s[i + 1..]
  }

  /** How many times `x` occurs in `s` (Python's `list.count`). */
  function Count<T(==)>(s: seq<T>, x: T): nat {
    if s == [] then 0
    else (if s[0] == x then 1 else 0) + Count(s[1..], x)
  }

  lemma {:induction false} CountConcat<T>(a: seq<T>, b: seq<T>, x: T)
    ensures Count(a + b, x) == Count(a, x) + Count(b, x)
  {
    if a != [] {
      assert (a + b)[1..] == a[1..] + b;
      CountConcat(a[1..], b, x);
    } else {
      assert a + b == b;
    }
  }

  lemma CountSingleton<T>(a: T, x: T)
    ensures Count([a], x) == if a == x then 1 else 0
  {
    assert [a][1..] == [];
  }

  /** An element occurs a positive number of times exactly when it is present. */
  lemma {:induction false} CountPositive<T>(s: seq<T>, x: T)
    ensures Count(s, x) > 0 <==> x in s
  {
    if s != [] {
      CountPositive(s[1..], x);
      assert s == [s[0]] + s[1..];
    }
  }

  /** `list.remove(x)` takes away exactly one `x` and nothing else. */
  lemma RemoveFirstCount<T>(s: seq<T>, x: T, y: T)
    requires x in s
    ensures Count(RemoveFirst(s, x), y) == Count(s, y) - (if x == y then 1 else 0)
  {
    var i := FirstIndex(s, x);
    assert s == s[..i] + ([x] + s[i + 1..]);
    CountConcat(s[..i], [x] + s[i + 1..], y);
    CountConcat([x], s[i + 1..], y);
    CountConcat(s[..i], s[i + 1..], y);
  }

  /** Removal skips a prefix that does not hold `x`. */
  lemma RemoveFirstAfter<T>(p: seq<T>, s: seq<T>, x: T)
    requires x !in p && x in s
    ensures RemoveFirst(p + s, x) == p + RemoveFirst(s, x)
  {
    FirstIndexPrepend(p, s, x);
    var i := FirstIndex(s, x);
    var ps := p + s;
    assert ps[..|p| + i] == p + s[..i];
    assert ps[|p| + i + 1..] == s[i + 1..];
    calc {
      RemoveFirst(ps, x);
      ps[..|p| + i] + ps[|p| + i + 1..];
      p + s[..i] + s[i + 1..];
      p + RemoveFirst(s, x);
    }
  }

  /** Removal leaves a suffix appended after an occurrence of `x` alone. */
  lemma RemoveFirstBefore<T>(s: seq<T>, t: seq<T>, x: T)
    requires x in s
    ensures RemoveFirst(s + t, x) == RemoveFirst(s, x) + t
  {
    FirstIndexAppend(s, t, x);
    var i := FirstIndex(s, x);
    assert (s + t)[..i] == s[..i];
    assert (s + t)[i + 1..] == s[i + 1..] + t;
  }

  /**
   * The list built by walking `s` and appending each element that is not
   * yet in the list (left to right).
   */
  function Dedup<T(==)>(s: seq<T>): (r: seq<T>)
    ensures NoDuplicates(r)
  {
    if s == [] then []
    else
      var p := Dedup(s[..|s| - 1]);
      var x := s[|s| - 1];
      if x in p then p else p + [x]
  }

  /** One more step of the walk: append `x` unless it is already there. */
  lemma DedupSnoc<T>(s: seq<T>, x: T)
    ensures Dedup(s + [x]) == if x in Dedup(s) then Dedup(s) else Dedup(s) + [x]
  {
    assert (s + [x])[..|s + [x]| - 1] == s;
  }

  /** The result holds exactly the elements of the input. */
  lemma {:induction false} DedupSameElements<T>(s: seq<T>)
    ensures forall x :: x in Dedup(s) <==> x in s
  {
    if s != [] {
      var q := s[..|s| - 1];
      DedupSameElements(q);
      assert s == q + [s[|s| - 1]];
    }
  }

  /** The first element of the input is the first element of the result. */
  lemma {:induction false} DedupKeepsHead<T>(s: seq<T>)
    requires s != []
    ensures Dedup(s) != [] && Dedup(s)[0] == s[0]
  {
    var q := s[..|s| - 1];
    if q != [] {
      DedupKeepsHead(q);
      assert q[0] == s[0];
    }
  }

  /** `d` lists elements of `s` in the order of their first occurrence in `s`. */
  ghost predicate InFirstSeenOrder<T>(s: seq<T>, d: seq<T>) {
    && (forall y :: y in d ==> y in s)
    && (forall i, j :: 0 <= i < j < |d| ==> FirstIndex(s, d[i]) < FirstIndex(s, d[j]))
  }

  /** Extending the input at the end keeps an order by first occurrence. */
  lemma FirstSeenOrderAppend<T>(s: seq<T>, t: seq<T>, d: seq<T>)
    requires InFirstSeenOrder(s, d)
    ensures InFirstSeenOrder(s + t, d)
  {
    forall i, j | 0 <= i < j < |d|
      ensures FirstIndex(s + t, d[i]) < FirstIndex(s + t, d[j])
    {
      FirstIndexAppend(s, t, d[i]);
      FirstIndexAppend(s, t, d[j]);
    }
  }

  /** A new last element of the input may be listed last. */
  lemma FirstSeenOrderSnoc<T>(s: seq<T>, x: T, d: seq<T>)
    requires InFirstSeenOrder(s + [x], d)
    requires forall y :: y in d ==> y in s
    requires x !in s
    ensures InFirstSeenOrder(s + [x], d + [x])
  {
    var sx := s + [x];
    assert sx[..|s|] == s;
    FirstIndexUnique(sx, x, |s|);
    var e := d + [x];
    forall i, j | 0 <= i < j < |e|
      ensures FirstIndex(sx, e[i]) < FirstIndex(sx, e[j])
    {
      assert e[i] == d[i] && d[i] in s;
      if j == |d| {
        FirstIndexAppend(s, [x], d[i]);
      }
    }
  }

  /**
   * First-seen order: the result lists elements in the order of their first
   * occurrence in the input.
   */
  lemma {:induction false} DedupFirstSeenOrder<T>(s: seq<T>)
    ensures InFirstSeenOrder(s, Dedup(s))
  {
    if s != [] {
      var q := s[..|s| - 1];
      var x := s[|s| - 1];
      assert s == q + [x];
      DedupFirstSeenOrder(q);
      DedupSnoc(q, x);
      FirstSeenOrderAppend(q, [x], Dedup(q));
      if x !in Dedup(q) {
        DedupSameElements(q);
        assert x !in q;
        FirstSeenOrderSnoc(q, x, Dedup(q));
      }
    }
  }
}
