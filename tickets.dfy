/**
 * The client-side ticket data shared by the board, the admin panel and the
 * dashboard: the ticket record, the two shapes the `tickets` context cell is
 * used with, and the sequence operations (`filter`, `map`, `new Set`) the
 * components build their views from.
 */
module Tickets {

  datatype Option<+T> = None | Some(value: T)

  /** The outcome of evaluating a JavaScript expression that may throw:
      reading `.map`, `.filter` or an index of the wrong kind of value
      raises a TypeError. */
  datatype Result<+T> = Ok(value: T) | TypeError

  /** A browser `File` object, identified by an opaque handle. */
  datatype FileRef = FileRef(handle: nat)

  /** A ticket as the components read it. Ids are compared with `===`. */
  datatype Ticket = Ticket(
    id: int,
    title: string,
    description: string,
    status: string,
    priority: string,
    submittedBy: string,
    assignedTo: string,
    created: string,
    updated: string,
    archived: bool)

  /** The `tickets` context cell. It starts as an array, but some components
      index it by lower-cased status and others call array methods on it,
      so both shapes are kept apart here. */
  datatype Collection =
    | Flat(items: seq<Ticket>)
    | Buckets(byStatus: map<string, seq<Ticket>>)

  /** The browser's `localStorage`: string keys to string values. */
  type Storage = map<string, string>

  /** The context's initial `tickets` value: an empty array. */
  const InitialTickets: Collection := Flat([])

  /** The context's initial `archivedTickets` value. */
  const InitialArchived: seq<Ticket> := []

  /** `a` is `b` with some elements left out, order kept. */
  ghost predicate IsSubsequence<T>(a: seq<T>, b: seq<T>)
    decreases |b|
  {
    if a == [] then true
    else if b == [] then false
    else (a[0] == b[0] && IsSubsequence(a[1..], b[1..])) || IsSubsequence(a, b[1..])
  }

  /** `Array.prototype.filter`. */
  function Filter<T(!new)>(s: seq<T>, p: T -> bool): (r: seq<T>)
    ensures |r| <= |s|
    ensures forall x :: x in r ==> x in s && p(x)
    ensures forall i :: 0 <= i < |s| && p(s[i]) ==> s[i] in r
  {
    if s == [] then []
    else
      var rest := Filter(s[1..], p);
      assert forall x :: x in s <==> x == s[0] || x in s[1..];
      if p(s[0]) then [s[0]] + rest else rest
  }

  /** The filtered list keeps the input's order. */
  lemma {:induction false} FilterIsSubsequence<T(!new)>(s: seq<T>, p: T -> bool)
    ensures IsSubsequence(Filter(s, p), s)
  {
    if s != [] {
      FilterIsSubsequence(s[1..], p);
    }
  }

  /** Every element the predicate accepts is kept as often as it occurs;
      every other element is dropped. */
  lemma {:induction false} FilterCounts<T(!new)>(s: seq<T>, p: T -> bool, x: T)
    ensures multiset(Filter(s, p))[x] == if p(x) then multiset(s)[x] else 0
  {
    if s != [] {
      FilterCounts(s[1..], p, x);
      assert s == [s[0]] + s[1..];
    }
  }

  /** Filtering an already filtered list with the same predicate changes nothing. */
  lemma {:induction false} FilterIdempotent<T(!new)>(s: seq<T>, p: T -> bool)
    ensures Filter(Filter(s, p), p) == Filter(s, p)
  {
    if s != [] {
      FilterIdempotent(s[1..], p);
    }
  }

  /** Filtering a concatenation filters each part. */
  lemma {:induction false} FilterConcat<T(!new)>(a: seq<T>, b: seq<T>, p: T -> bool)
    ensures Filter(a + b, p) == Filter(a, p) + Filter(b, p)
  {
    if a == [] {
      assert a + b == b;
    } else {
      var ab := a + b;
      assert ab[0] == a[0] && ab[1..] == a[1..] + b;
      FilterConcat(a[1..], b, p);
      assert Filter(ab, p) == (if p(a[0]) then [a[0]] else []) + Filter(a[1..] + b, p);
      assert Filter(a, p) == (if p(a[0]) then [a[0]] else []) + Filter(a[1..], p);
    }
  }

  /** A predicate every element satisfies keeps the whole list. */
  lemma {:induction false} FilterKeepsAll<T(!new)>(s: seq<T>, p: T -> bool)
    requires forall i :: 0 <= i < |s| ==> p(s[i])
    ensures Filter(s, p) == s
  {
    if s != [] {
      FilterKeepsAll(s[1..], p);
    }
  }

  /** `prev.map(t => t.id === id ? f(t) : t)`: the update shape shared by
      `cancelTicket`, `archiveTicket` and the admin panel's `handleChange`. */
  function UpdateWhere(s: seq<Ticket>, id: int, f: Ticket -> Ticket): (r: seq<Ticket>)
    ensures |r| == |s|
    ensures forall i :: 0 <= i < |s| ==> r[i] == if s[i].id == id then f(s[i]) else s[i]
  {
    if s == [] then [] else [if s[0].id == id then f(s[0]) else s[0]] + UpdateWhere(s[1..], id, f)
  }

  /** The position of the first occurrence of `x` in `xs`. */
  ghost function FirstIndex<T>(xs: seq<T>, x: T): (k: nat)
    requires x in xs
    ensures k < |xs| && xs[k] == x
    ensures forall i :: 0 <= i < k ==> xs[i] != x
  {
    if xs[0] == x then 0 else 1 + FirstIndex(xs[1..], x)
  }

  /** The elements of `xs` that are not in `seen`, each once, in order of first
      occurrence: the iteration order of `new Set(xs)` when `seen` is empty. */
  function DistinctFrom<T(!new)>(xs: seq<T>, seen: set<T>): (r: seq<T>)
    ensures forall i, j :: 0 <= i < j < |r| ==> r[i] != r[j]
    ensures forall x :: x in r <==> x in xs && x !in seen
    ensures IsSubsequence(r, xs)
  {
    if xs == [] then []
    else if xs[0] in seen then
      var rest := DistinctFrom(xs[1..], seen);
      assert forall x :: x in xs <==> x == xs[0] || x in xs[1..];
      rest
    else
      var rest := DistinctFrom(xs[1..], seen + {xs[0]});
      assert forall x :: x in xs <==> x == xs[0] || x in xs[1..];
      [xs[0]] + rest
  }

  /** `DistinctFrom` lists its elements in the order of their first
      occurrence in `xs`. */
  lemma {:induction false} DistinctFromInOrder<T(!new)>(xs: seq<T>, seen: set<T>)
    ensures forall i, j :: 0 <= i < j < |DistinctFrom(xs, seen)| ==>
      FirstIndex(xs, DistinctFrom(xs, seen)[i]) < FirstIndex(xs, DistinctFrom(xs, seen)[j])
  {
    if xs != [] {
      var seen' := if xs[0] in seen then seen else seen + {xs[0]};
      var rest := DistinctFrom(xs[1..], seen');
      var r := DistinctFrom(xs, seen);
      DistinctFromInOrder(xs[1..], seen');
      forall i | 0 <= i < |rest|
        ensures rest[i] in xs && FirstIndex(xs, rest[i]) == 1 + FirstIndex(xs[1..], rest[i])
      {
        assert rest[i] in rest;
        assert rest[i] != xs[0];
      }
      if xs[0] !in seen {
        assert r == [xs[0]] + rest;
        assert FirstIndex(xs, xs[0]) == 0;
        forall i, j | 0 <= i < j < |r|
          ensures FirstIndex(xs, r[i]) < FirstIndex(xs, r[j])
        {
          if i > 0 {
            assert r[i] == rest[i - 1] && r[j] == rest[j - 1];
          } else {
            assert r[j] == rest[j - 1];
          }
        }
      }
    }
  }

  /** `String.prototype.toLowerCase` on the ASCII letters; every other
      character is kept. */
  function LowerChar(c: char): (d: char)
    ensures 'A' <= c <= 'Z' ==> 'a' <= d <= 'z' && d as int - c as int == 32
    ensures !('A' <= c <= 'Z') ==> d == c
  {
    if 'A' <= c <= 'Z' then (c as int + 32) as char else c
  }

  function Lower(s: string): (r: string)
    ensures |r| == |s|
    ensures forall i :: 0 <= i < |s| ==> r[i] == LowerChar(s[i])
  {
    seq(|s|, i requires 0 <= i < |s| => LowerChar(s[i]))
  }

  /** `bucket || []`: a missing bucket reads as an empty list. */
  function BucketOrEmpty(b: map<string, seq<Ticket>>, key: string): (r: seq<Ticket>)
    ensures key in b ==> r == b[key]
    ensures key !in b ==> r == []
  {
    if key in b then b[key] else []
  }
}
