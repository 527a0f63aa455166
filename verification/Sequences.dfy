/** Sequence vocabulary shared by the protocol models: filtering, and the laws of
    filtering over concatenation that every conservation proof rests on. */
module Sequences {

  datatype Option<+T> = None | Some(value: T)

  /** The elements of an option as a sequence of length 0 or 1. */
  function OptSeq<T>(o: Option<T>): seq<T> {
    if o.Some? then [o.value] else []
  }

  function Filter<T>(p: T -> bool, s: seq<T>): seq<T> {
    if s == [] then []
    else (if p(s[0]) then [s[0]] else []) + Filter(p, s[1..])
  }

  /** The first element of a sequence that does not start with the empty one. */
  lemma HeadOfConcat<T>(a: seq<T>, b: seq<T>)
    requires a != []
    ensures (a + b)[0] == a[0] && (a + b)[1..] == a[1..] + b
  {
  }

  lemma FilterHead<T>(p: T -> bool, s: seq<T>)
    requires s != []
    ensures Filter(p, s) == (if p(s[0]) then [s[0]] else []) + Filter(p, s[1..])
  {
  }

  lemma {:induction false} FilterConcat<T>(p: T -> bool, a: seq<T>, b: seq<T>)
    ensures Filter(p, a + b) == Filter(p, a) + Filter(p, b)
  {
    if a == [] {
      assert a + b == b;
    } else {
      HeadOfConcat(a, b);
      FilterHead(p, a + b);
      FilterHead(p, a);
      FilterConcat(p, a[1..], b);
      ConcatAssoc(if p(a[0]) then [a[0]] else [], Filter(p, a[1..]), Filter(p, b));
    }
  }

  lemma {:induction false} FilterAll<T>(p: T -> bool, s: seq<T>)
    requires forall x | x in s :: p(x)
    ensures Filter(p, s) == s
  {
    if s != [] {
      FilterAll(p, s[1..]);
    }
  }

  lemma {:induction false} FilterNone<T>(p: T -> bool, s: seq<T>)
    ensures Filter(p, s) == [] <==> forall x | x in s :: !p(x)
  {
    if s != [] {
      FilterNone(p, s[1..]);
      assert s == [s[0]] + s[1..];
    }
  }

  /** Filtering by p and then by q keeps what satisfies both. */
  lemma {:induction false} FilterTwice<T>(p: T -> bool, q: T -> bool, pq: T -> bool, s: seq<T>)
    requires forall x | x in s :: pq(x) <==> p(x) && q(x)
    ensures Filter(q, Filter(p, s)) == Filter(pq, s)
  {
    if s != [] {
      FilterTwice(p, q, pq, s[1..]);
      var h := if p(s[0]) then [s[0]] else [];
      FilterConcat(q, h, Filter(p, s[1..]));
    }
  }

  lemma FilterCommutes<T>(p: T -> bool, q: T -> bool, s: seq<T>)
    ensures Filter(p, Filter(q, s)) == Filter(q, Filter(p, s))
  {
    var both := (x: T) => p(x) && q(x);
    FilterTwice(q, p, both, s);
    FilterTwice(p, q, both, s);
  }

  lemma {:induction false} FilterMembers<T>(p: T -> bool, s: seq<T>)
    ensures forall x :: x in Filter(p, s) <==> x in s && p(x)
  {
    if s != [] {
      FilterMembers(p, s[1..]);
      assert s == [s[0]] + s[1..];
    }
  }

  lemma ConcatAssoc<T>(a: seq<T>, b: seq<T>, c: seq<T>)
    ensures a + (b + c) == a + b + c
  {
  }

  predicate IsPrefix<T(==)>(a: seq<T>, b: seq<T>) {
    |a| <= |b| && a == b[..|a|]
  }
}
