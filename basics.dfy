/** Option, the one wrapper the model needs for nullable columns and failures. */
module Wrappers {
  datatype Option<T> = None | Some(value: T)
}

/** Ruby's notion of a blank string, as `String#blank?` and `present?` use it. */
module Text {
  import opened Wrappers

  /** The ASCII whitespace characters (space, \t, \n, \v, \f, \r). */
  predicate IsSpace(c: char) {
    c == ' ' || c == '\t' || c == '\n' || c == '\r' || c as int == 11 || c as int == 12
  }

  /** `"".blank?` and `"  ".blank?` hold; any other character makes a string non-blank. */
  predicate Blank(s: string) {
    forall i :: 0 <= i < |s| ==> IsSpace(s[i])
  }

  /** `x.present?` for a nullable string column. */
  predicate Present(s: Option<string>) {
    s.Some? && !Blank(s.value)
  }
}

/** Sequences filtered by a predicate: the in-memory reading of an ActiveRecord `where`. */
module Seqs {

  /** The elements of `s` that satisfy `p`, in their original order. */
  function Where<T(!new)>(s: seq<T>, p: T -> bool): (r: seq<T>)
    ensures |r| <= |s|
    ensures forall x :: x in r <==> x in s && p(x)
  {
    if s == [] then []
    else
      assert s == [s[0]] + s[1..];
      (if p(s[0]) then [s[0]] else []) + Where(s[1..], p)
  }

  lemma {:induction false} WhereAppend<T(!new)>(a: seq<T>, b: seq<T>, p: T -> bool)
    ensures Where(a + b, p) == Where(a, p) + Where(b, p)
  {
    if a == [] {
      assert a + b == b;
    } else {
      assert (a + b)[1..] == a[1..] + b;
      WhereAppend(a[1..], b, p);
    }
  }

  /** Filtering by a predicate every element already satisfies changes nothing. */
  lemma {:induction false} WhereAll<T(!new)>(s: seq<T>, p: T -> bool)
    requires forall i :: 0 <= i < |s| ==> p(s[i])
    ensures Where(s, p) == s
  {
    if s != [] {
      WhereAll(s[1..], p);
    }
  }

  /** Two successive filters are one filter by the conjunction (ActiveRecord scope chaining). */
  lemma {:induction false} WhereWhere<T(!new)>(s: seq<T>, p: T -> bool, q: T -> bool, pq: T -> bool)
    requires forall x :: pq(x) == (p(x) && q(x))
    ensures Where(Where(s, p), q) == Where(s, pq)
  {
    if s != [] {
      var head := if p(s[0]) then [s[0]] else [];
      assert Where(s, p) == head + Where(s[1..], p);
      WhereAppend(head, Where(s[1..], p), q);
      WhereWhere(s[1..], p, q, pq);
      assert Where(head, q) == if pq(s[0]) then [s[0]] else [];
    }
  }

  /** Each selected value occurs as often as in the input; the others not at all. */
  lemma {:induction false} WhereCount<T(!new)>(s: seq<T>, p: T -> bool, x: T)
    ensures multiset(Where(s, p))[x] == if p(x) then multiset(s)[x] else 0
  {
    if s != [] {
      assert s == [s[0]] + s[1..];
      WhereCount(s[1..], p, x);
    }
  }

  /** A weaker predicate selects at least as much, counting duplicates. */
  lemma WhereMonotone<T(!new)>(s: seq<T>, p: T -> bool, q: T -> bool)
    requires forall x :: p(x) ==> q(x)
    ensures multiset(Where(s, p)) <= multiset(Where(s, q))
  {
  }
}

/** Request parameters: strings, arrays of strings and nested hashes. */
module Params {
  import opened Wrappers
  import opened Text

  datatype Value = Str(s: string) | List(items: seq<string>) | Hash(entries: map<string, Value>)

  function Get(params: map<string, Value>, key: string): Option<Value> {
    if key in params then Some(params[key]) else None
  }

  /** `params[key].present?`: a non-blank string, a non-empty array or a non-empty hash. */
  predicate PresentValue(v: Option<Value>) {
    match v
    case None => false
    case Some(Str(s)) => !Blank(s)
    case Some(List(items)) => |items| > 0
    case Some(Hash(entries)) => |entries| > 0
  }
}
