/** Python's stable `sorted(items, key=...)`, as a function of the items and of the order that the key induces. */
module Ordering {

  ghost predicate TotalPreorder<T(!new)>(le: (T, T) -> bool) {
    && (forall a, b :: le(a, b) || le(b, a))
    && (forall a, b, c :: le(a, b) && le(b, c) ==> le(a, c))
  }

  ghost predicate Sorted<T>(s: seq<T>, le: (T, T) -> bool) {
    forall i, j :: 0 <= i < j < |s| ==> le(s[i], s[j])
  }

  /** Only equal items compare both ways. */
  ghost predicate Antisymmetric<T>(items: multiset<T>, le: (T, T) -> bool) {
    forall a, b :: a in items && b in items && le(a, b) && le(b, a) ==> a == b
  }

  function Insert<T>(x: T, s: seq<T>, le: (T, T) -> bool): (r: seq<T>)
    ensures |r| == |s| + 1
    ensures multiset(r) == multiset(s) + multiset{x}
  {
    if s == [] then [x]
    else if le(x, s[0]) then [x] + s
    else
      assert s == [s[0]] + s[1..];
      [s[0]] + Insert(x, s[1..], le)
  }

  function SortBy<T>(s: seq<T>, le: (T, T) -> bool): (r: seq<T>)
    ensures |r| == |s|
    ensures multiset(r) == multiset(s)
  {
    if s == [] then []
    else
      assert s == [s[0]] + s[1..];
      Insert(s[0], SortBy(s[1..], le), le)
  }

  lemma {:induction false} InsertSorted<T(!new)>(x: T, s: seq<T>, le: (T, T) -> bool)
    requires TotalPreorder(le) && Sorted(s, le)
    ensures Sorted(Insert(x, s, le), le)
  {
    if s != [] && !le(x, s[0]) {
      var r := Insert(x, s[1..], le);
      InsertSorted(x, s[1..], le);
      forall j | 0 <= j < |r| ensures le(s[0], r[j]) {
        assert r[j] in multiset(r);
        assert r[j] == x || r[j] in s[1..];
      }
    }
  }

  lemma {:induction false} SortBySorts<T(!new)>(s: seq<T>, le: (T, T) -> bool)
    requires TotalPreorder(le)
    ensures Sorted(SortBy(s, le), le)
  {
    if s != [] {
      SortBySorts(s[1..], le);
      InsertSorted(s[0], SortBy(s[1..], le), le);
    }
  }

  lemma TailMultiset<T>(a: seq<T>)
    requires a != []
    ensures a == [a[0]] + a[1..] && multiset(a[1..]) == multiset(a) - multiset{a[0]}
  {
    assert a == [a[0]] + a[1..];
  }

  /** Two sorted arrangements of the same items are the same sequence. */
  lemma {:induction false} SortedUnique<T(!new)>(a: seq<T>, b: seq<T>, le: (T, T) -> bool)
    requires TotalPreorder(le) && Sorted(a, le) && Sorted(b, le)
    requires multiset(a) == multiset(b) && Antisymmetric(multiset(a), le)
    ensures a == b
  {
    assert |a| == |multiset(a)| && |b| == |multiset(b)|;
    if a != [] {
      HeadsAgree(a, b, le);
      TailMultiset(a);
      TailMultiset(b);
      SortedUnique(a[1..], b[1..], le);
    }
  }

  lemma HeadsAgree<T(!new)>(a: seq<T>, b: seq<T>, le: (T, T) -> bool)
    requires TotalPreorder(le) && Sorted(a, le) && Sorted(b, le) && a != [] && b != []
    requires multiset(a) == multiset(b) && Antisymmetric(multiset(a), le)
    ensures a[0] == b[0]
  {
    assert a[0] in multiset(b) && b[0] in multiset(a);
    var i :| 0 <= i < |a| && a[i] == b[0];
    var j :| 0 <= j < |b| && b[j] == a[0];
    assert le(a[0], a[i]) && le(b[0], b[j]);
  }

  /** Sorting forgets the incoming order. */
  lemma SortByCanonical<T(!new)>(a: seq<T>, b: seq<T>, le: (T, T) -> bool)
    requires TotalPreorder(le)
    requires multiset(a) == multiset(b) && Antisymmetric(multiset(a), le)
    ensures SortBy(a, le) == SortBy(b, le)
  {
    SortBySorts(a, le);
    SortBySorts(b, le);
    SortedUnique(SortBy(a, le), SortBy(b, le), le);
  }

  /** Membership survives sorting. */
  lemma SortByMembers<T>(s: seq<T>, le: (T, T) -> bool)
    ensures forall x :: x in SortBy(s, le) <==> x in s
  {
    forall x ensures x in SortBy(s, le) <==> x in s {
      assert x in multiset(s) <==> x in multiset(SortBy(s, le));
    }
  }

  // ----- rearrangements -----

  function RemoveAt<T>(s: seq<T>, k: nat): (r: seq<T>)
    requires k < |s|
    ensures |r| == |s| - 1
    ensures r == s[..k] + s[k + 1..]
    ensures multiset(r) == multiset(s) - multiset{s[k]}
  {
    assert s == s[..k] + [s[k]] + s[k + 1..];
    s[..k] + s[k + 1..]
  }

  /** Positions in `b`, pairwise different, that hold the items of `a`. */
  ghost predicate Embeds<T>(e: seq<nat>, a: seq<T>, b: seq<T>) {
    |e| == |a| && NoDuplicates(e) && forall i :: 0 <= i < |a| ==> e[i] < |b| && b[e[i]] == a[i]
  }

  lemma {:induction false} Embedding<T>(a: seq<T>, b: seq<T>) returns (e: seq<nat>)
    requires multiset(a) <= multiset(b)
    ensures Embeds(e, a, b)
  {
    if a == [] { return []; }
    var n := |a| - 1;
    var k := FindLast(a, b);
    var e' := Embedding(a[..n], RemoveAt(b, k));
    e := seq(n, i requires 0 <= i < n => if e'[i] < k then e'[i] else e'[i] + 1) + [k];
    EmbedsLast(e', e, a, b, k);
  }

  lemma FindLast<T>(a: seq<T>, b: seq<T>) returns (k: nat)
    requires a != [] && multiset(a) <= multiset(b)
    ensures k < |b| && b[k] == a[|a| - 1]
    ensures multiset(a[..|a| - 1]) <= multiset(RemoveAt(b, k))
  {
    var n := |a| - 1;
    assert a == a[..n] + [a[n]];
    assert multiset(a) == multiset(a[..n]) + multiset{a[n]};
    assert a[n] in multiset(b);
    k :| 0 <= k < |b| && b[k] == a[n];
  }

  lemma RemovedSame<T>(a: seq<T>, b: seq<T>, k: nat)
    requires a != [] && multiset(a) == multiset(b) && k < |b| && b[k] == a[|a| - 1]
    ensures multiset(RemoveAt(a, |a| - 1)) == multiset(RemoveAt(b, k))
    ensures RemoveAt(a, |a| - 1) == a[..|a| - 1]
  {}

  lemma EmbedsLast<T>(e': seq<nat>, e: seq<nat>, a: seq<T>, b: seq<T>, k: nat)
    requires |a| > 0 && k < |b| && b[k] == a[|a| - 1] && Embeds(e', a[..|a| - 1], b[..k] + b[k + 1..])
    requires |e| == |a| && e[|a| - 1] == k
    requires forall i :: 0 <= i < |a| - 1 ==> e[i] == if e'[i] < k then e'[i] else e'[i] + 1
    ensures Embeds(e, a, b)
  {
    forall i | 0 <= i < |a| - 1 ensures e[i] < |b| && b[e[i]] == a[i] {
      assert (b[..k] + b[k + 1..])[e'[i]] == a[..|a| - 1][i];
    }
  }

  /** Applying a function to every item. */
  function Map<A, B>(f: A -> B, s: seq<A>): (r: seq<B>)
    ensures |r| == |s| && forall i :: 0 <= i < |s| ==> r[i] == f(s[i])
  {
    seq(|s|, i requires 0 <= i < |s| => f(s[i]))
  }

  lemma {:induction false} MapAppend<A, B>(f: A -> B, s: seq<A>, t: seq<A>)
    ensures Map(f, s + t) == Map(f, s) + Map(f, t)
  {}

  /** Mapping commutes with rearranging. */
  lemma {:induction false} MapReordered<A, B>(f: A -> B, a: seq<A>, b: seq<A>)
    requires multiset(a) == multiset(b)
    ensures multiset(Map(f, a)) == multiset(Map(f, b))
  {
    if a == [] {
      assert |multiset(b)| == 0 && b == [];
    } else {
      var n := |a| - 1;
      var k := FindLast(a, b);
      RemovedSame(a, b, k);
      MapReordered(f, RemoveAt(a, n), RemoveAt(b, k));
      MapRemove(f, a, n);
      MapRemove(f, b, k);
    }
  }

  lemma MapRemove<A, B>(f: A -> B, s: seq<A>, k: nat)
    requires k < |s|
    ensures multiset(Map(f, s)) == multiset(Map(f, RemoveAt(s, k))) + multiset{f(s[k])}
  {
    var mapped := Map(f, s);
    assert Map(f, RemoveAt(s, k)) == RemoveAt(mapped, k);
    assert mapped[k] in multiset(mapped);
  }

  // ----- sequences without repetition -----

  ghost predicate NoDuplicates<T>(s: seq<T>) {
    forall i, j :: 0 <= i < j < |s| ==> s[i] != s[j]
  }

  lemma {:induction false} NoDuplicatesCount<T>(s: seq<T>, x: T)
    requires NoDuplicates(s)
    ensures multiset(s)[x] <= 1
  {
    if s != [] {
      assert s == [s[0]] + s[1..];
      NoDuplicatesCount(s[1..], x);
    }
  }

  lemma NoDuplicatesAppend<T>(s: seq<T>, x: T)
    requires NoDuplicates(s) && x !in s
    ensures NoDuplicates(s + [x])
  {}

  /** Two sequences without repetition and with the same members are rearrangements of each other. */
  lemma SameMembersSameMultiset<T>(a: seq<T>, b: seq<T>)
    requires NoDuplicates(a) && NoDuplicates(b)
    requires forall x :: x in a <==> x in b
    ensures multiset(a) == multiset(b)
  {
    forall x ensures multiset(a)[x] == multiset(b)[x] {
      NoDuplicatesCount(a, x);
      NoDuplicatesCount(b, x);
      assert x in multiset(a) <==> x in a;
      assert x in multiset(b) <==> x in b;
    }
  }

  /** Rearranging keeps a sequence free of repetition. */
  lemma NoDuplicatesPermuted<T>(a: seq<T>, b: seq<T>)
    requires multiset(a) == multiset(b) && NoDuplicates(a)
    ensures NoDuplicates(b)
  {
    forall i, j | 0 <= i < j < |b| ensures b[i] != b[j] {
      if b[i] == b[j] {
        NoDuplicatesCount(a, b[i]);
        assert b == b[..j] + b[j..] && b[i] in multiset(b[..j]) && b[i] in multiset(b[j..]) by {
          assert b[..j][i] == b[i] && b[j..][0] == b[j];
        }
      }
    }
  }

  /** `range(n)`. */
  function Indices(n: nat): (r: seq<nat>)
    ensures |r| == n && NoDuplicates(r)
    ensures forall i: nat :: i in r <==> i < n
    ensures forall i :: 0 <= i < n ==> r[i] == i
  {
    if n == 0 then [] else Indices(n - 1) + [n - 1]
  }

  function IndexSet(n: nat): (r: set<nat>)
    ensures |r| == n
    ensures forall i: nat :: i in r <==> i < n
  {
    if n == 0 then {} else IndexSet(n - 1) + {n - 1}
  }

  // ----- the concrete orders -----

  function IntPairLe(a: (int, int), b: (int, int)): bool {
    a.0 < b.0 || (a.0 == b.0 && a.1 <= b.1)
  }

  lemma IntPairOrder()
    ensures TotalPreorder(IntPairLe)
    ensures forall items :: Antisymmetric(items, IntPairLe)
  {}

  /** Python string comparison: lexicographic by code point. */
  function StringLe(a: string, b: string): bool {
    if a == [] then true
    else if b == [] then false
    else a[0] < b[0] || (a[0] == b[0] && StringLe(a[1..], b[1..]))
  }

  lemma {:induction false} StringLeTotal(a: string, b: string)
    ensures StringLe(a, b) || StringLe(b, a)
    ensures StringLe(a, b) && StringLe(b, a) ==> a == b
  {
    if a != [] && b != [] {
      StringLeTotal(a[1..], b[1..]);
      assert a == [a[0]] + a[1..] && b == [b[0]] + b[1..];
    }
  }

  lemma {:induction false} StringLeTransitive(a: string, b: string, c: string)
    requires StringLe(a, b) && StringLe(b, c)
    ensures StringLe(a, c)
  {
    if a != [] && a[0] == b[0] == c[0] {
      StringLeTransitive(a[1..], b[1..], c[1..]);
    }
  }

  lemma {:induction false} LeastString(s: set<string>) returns (x: string)
    requires s != {}
    ensures x in s && forall y :: y in s ==> StringLe(x, y)
  {
    x :| x in s;
    StringOrder();
    if s != {x} {
      var y := LeastString(s - {x});
      if StringLe(y, x) { x := y; }
    }
  }

  lemma LeastStringExists(s: set<string>)
    requires s != {}
    ensures exists x :: x in s && forall y :: y in s ==> StringLe(x, y)
    ensures forall x, y :: StringLe(x, y) && StringLe(y, x) ==> x == y
  {
    var x := LeastString(s);
    forall x, y | StringLe(x, y) && StringLe(y, x) ensures x == y {
      StringLeTotal(x, y);
    }
  }

  /** `sorted(s)` for a set of strings. */
  function SortedListing(s: set<string>): (r: seq<string>)
    ensures forall x :: x in r <==> x in s
  {
    if s == {} then []
    else
      LeastStringExists(s);
      var x :| x in s && forall y :: y in s ==> StringLe(x, y);
      [x] + SortedListing(s - {x})
  }

  /** The listing is in ascending order, without repetition. */
  lemma {:induction false} SortedListingSorts(s: set<string>)
    ensures Sorted(SortedListing(s), StringLe) && NoDuplicates(SortedListing(s))
  {
    if s != {} {
      LeastStringExists(s);
      var x :| x in s && forall y :: y in s ==> StringLe(x, y);
      hide StringLe;
      SortedListingSorts(s - {x});
    }
  }

  lemma StringOrder()
    ensures TotalPreorder(StringLe)
    ensures forall items :: Antisymmetric(items, StringLe)
  {
    forall a, b ensures StringLe(a, b) || StringLe(b, a) {
      StringLeTotal(a, b);
    }
    forall a, b, c | StringLe(a, b) && StringLe(b, c) ensures StringLe(a, c) {
      StringLeTransitive(a, b, c);
    }
    forall a, b | StringLe(a, b) && StringLe(b, a) ensures a == b {
      StringLeTotal(a, b);
    }
  }
}
