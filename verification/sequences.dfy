/** Taking a first part of a sequence and filtering it. */
module Sequences {
  function Take<T>(n: nat, s: seq<T>): seq<T> {
    if n < |s| then s[..n] else s
  }

  function Filter<T>(s: seq<T>, keep: T -> bool): (r: seq<T>)
    ensures |r| <= |s|
  {
    if s == [] then []
    else
      var n := |s| - 1;
      var r := Filter(s[..n], keep);
      if keep(s[n]) then r + [s[n]] else r
  }

  lemma FilterAppend<T>(s: seq<T>, x: T, keep: T -> bool)
    ensures Filter(s + [x], keep) == if keep(x) then Filter(s, keep) + [x] else Filter(s, keep)
  {
    assert (s + [x])[..|s|] == s;
  }

  lemma FilterSnoc<T>(s: seq<T>, i: nat, keep: T -> bool)
    requires i < |s|
    ensures Filter(s[..i + 1], keep) == if keep(s[i]) then Filter(s[..i], keep) + [s[i]] else Filter(s[..i], keep)
  {
    assert s[..i + 1][..i] == s[..i];
  }

  lemma {:induction false} FilterMembers<T>(s: seq<T>, x: T, keep: T -> bool)
    ensures x in Filter(s, keep) <==> x in s && keep(x)
    decreases |s|
  {
    if s != [] {
      var n := |s| - 1;
      assert s == s[..n] + [s[n]];
      FilterMembers(s[..n], x, keep);
    }
  }

  lemma {:induction false} FilterConcat<T>(a: seq<T>, b: seq<T>, keep: T -> bool)
    ensures Filter(a + b, keep) == Filter(a, keep) + Filter(b, keep)
    decreases |b|
  {
    if b == [] {
      assert a + b == a;
    } else {
      var n := |b| - 1;
      assert a + b == (a + b[..n]) + [b[n]];
      FilterAppend(a + b[..n], b[n], keep);
      FilterConcat(a, b[..n], keep);
    }
  }

  lemma {:induction false} FilterAll<T>(s: seq<T>, keep: T -> bool)
    requires forall i :: 0 <= i < |s| ==> keep(s[i])
    ensures Filter(s, keep) == s
    decreases |s|
  {
    if s != [] {
      FilterAll(s[..|s| - 1], keep);
    }
  }

  lemma {:induction false} FilterNone<T>(s: seq<T>, keep: T -> bool)
    requires forall i :: 0 <= i < |s| ==> !keep(s[i])
    ensures Filter(s, keep) == []
    decreases |s|
  {
    if s != [] {
      FilterNone(s[..|s| - 1], keep);
    }
  }

  lemma FilterHead<T>(s: seq<T>, b: nat, keep: T -> bool)
    requires b <= |s|
    requires forall i :: 0 <= i < |s| ==> keep(s[i]) == (i < b)
    ensures Filter(s, keep) == s[..b]
  {
    var head, tail := s[..b], s[b..];
    assert s == head + tail;
    forall i | 0 <= i < |head| ensures keep(head[i]) {
      assert head[i] == s[i];
    }
    forall i | 0 <= i < |tail| ensures !keep(tail[i]) {
      assert tail[i] == s[b + i];
    }
    FilterConcat(head, tail, keep);
    FilterAll(head, keep);
    FilterNone(tail, keep);
  }

  lemma {:induction false} FilterTail<T>(s: seq<T>, b: nat, keep: T -> bool)
    requires b <= |s|
    requires forall i :: 0 <= i < |s| ==> keep(s[i]) == (b <= i)
    ensures Filter(s, keep) == s[b..]
    decreases |s|
  {
    if b == |s| {
      FilterNone(s, keep);
    } else {
      var n := |s| - 1;
      FilterTail(s[..n], b, keep);
      assert s[b..] == s[..n][b..] + [s[n]];
    }
  }

  lemma {:induction false} FilterTwice<T>(s: seq<T>, f: T -> bool, g: T -> bool, both: T -> bool)
    requires forall i :: 0 <= i < |s| ==> both(s[i]) == (f(s[i]) && g(s[i]))
    ensures Filter(Filter(s, f), g) == Filter(s, both)
    decreases |s|
  {
    if s != [] {
      var n := |s| - 1;
      FilterTwice(s[..n], f, g, both);
      if f(s[n]) {
        FilterAppend(Filter(s[..n], f), s[n], g);
      }
    }
  }

  /** What a filter keeps depends on the entries alone. */
  lemma {:induction false} FilterSame<T>(s: seq<T>, f: T -> bool, g: T -> bool)
    requires forall i :: 0 <= i < |s| ==> f(s[i]) == g(s[i])
    ensures Filter(s, f) == Filter(s, g)
    decreases |s|
  {
    if s != [] {
      FilterSame(s[..|s| - 1], f, g);
    }
  }

  lemma TakeConcat<T>(n: nat, a: seq<T>, b: seq<T>)
    ensures |Take(n, a)| <= n
    ensures Take(n, a + b) == Take(n, a) + Take(n - |Take(n, a)|, b)
  {
    if n < |a| {
      assert (a + b)[..n] == a[..n];
    } else if n < |a| + |b| {
      assert (a + b)[..n] == a + b[..n - |a|];
    }
  }
}
