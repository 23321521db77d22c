/** Duplicate-free sequences and the stable sort the board and the readers use. */
module Orders {
  predicate NoDup<T(==)>(s: seq<T>) {
    s == [] || (s[0] !in s[1..] && NoDup(s[1..]))
  }

  ghost function Members<T>(s: seq<T>): set<T> {
    set x | x in s
  }

  lemma {:induction false} NoDupSize<T>(s: seq<T>)
    requires NoDup(s)
    ensures |Members(s)| == |s|
  {
    if s == [] {
      assert Members(s) == {};
    } else {
      NoDupSize(s[1..]);
      assert Members(s) == {s[0]} + Members(s[1..]);
    }
  }

  lemma {:induction false} NoDupIndices<T>(s: seq<T>, i: nat, j: nat)
    requires NoDup(s) && i < j < |s|
    ensures s[i] != s[j]
  {
    if i == 0 {
      assert s[j] == s[1..][j - 1];
    } else {
      NoDupIndices(s[1..], i - 1, j - 1);
    }
  }

  lemma NoDupPrefix<T>(s: seq<T>, n: nat)
    requires NoDup(s) && n < |s|
    ensures s[n] !in s[..n]
  {
    if s[n] in s[..n] {
      var j :| 0 <= j < n && s[..n][j] == s[n];
      NoDupIndices(s, j, n);
    }
  }

  lemma {:induction false} NoDupSplice<T>(a: seq<T>, x: T, b: seq<T>)
    requires NoDup(a + b) && x !in a + b
    ensures NoDup(a + [x] + b)
  {
    if a == [] {
      assert a + [x] + b == [x] + b;
      assert a + b == b;
    } else {
      assert (a + b)[1..] == a[1..] + b;
      NoDupSplice(a[1..], x, b);
      assert (a + [x] + b)[1..] == a[1..] + [x] + b;
      assert a[0] !in a[1..] + b && a[0] != x;
    }
  }

  /** `s` with `x` put in at `at`. */
  function Splice<T>(s: seq<T>, at: nat, x: T): (r: seq<T>)
    requires at <= |s|
    ensures |r| == |s| + 1 && r[at] == x
    ensures forall i :: 0 <= i < |r| && i != at ==> r[i] == s[if i < at then i else i - 1]
  {
    s[..at] + [x] + s[at..]
  }

  lemma SpliceHolds<T>(s: seq<T>, at: nat, x: T, y: T)
    requires at <= |s|
    ensures y in Splice(s, at, x) <==> y == x || y in s
  {
    var r := Splice(s, at, x);
    if y in s {
      var k :| 0 <= k < |s| && s[k] == y;
      assert r[if k < at then k else k + 1] == y;
    }
    assert r[at] == x;
  }

  lemma SpliceIsNoDup<T>(s: seq<T>, at: nat, x: T)
    requires at <= |s| && NoDup(s) && x !in s
    ensures NoDup(Splice(s, at, x))
  {
    assert s[..at] + s[at..] == s;
    NoDupSplice(s[..at], x, s[at..]);
  }

  lemma SpliceMembers<T>(s: seq<T>, at: nat, x: T)
    requires at <= |s|
    ensures forall y :: y in Splice(s, at, x) <==> y == x || y in s
    ensures NoDup(s) && x !in s ==> NoDup(Splice(s, at, x))
  {
    forall y ensures y in Splice(s, at, x) <==> y == x || y in s {
      SpliceHolds(s, at, x, y);
    }
    if NoDup(s) && x !in s {
      SpliceIsNoDup(s, at, x);
    }
  }

  function IndexOf<T(==)>(s: seq<T>, x: T): (k: nat)
    requires x in s
    ensures k < |s| && s[k] == x
  {
    if s[0] == x then 0 else 1 + IndexOf(s[1..], x)
  }

  lemma IndexOfAt<T>(s: seq<T>, i: nat)
    requires NoDup(s) && i < |s|
    ensures IndexOf(s, s[i]) == i
  {
    var k := IndexOf(s, s[i]);
    if k < i { NoDupIndices(s, k, i); } else if i < k { NoDupIndices(s, i, k); }
  }

  predicate Ordered<T>(le: (T, T) -> bool, s: seq<T>) {
    forall i, j :: 0 <= i < j < |s| ==> le(s[i], s[j])
  }

  /** `le` compares any two values and is transitive. Ties are allowed. */
  ghost predicate Preorder<T(!new)>(le: (T, T) -> bool) {
    && (forall a, b :: le(a, b) || le(b, a))
    && (forall a, b, c :: le(a, b) && le(b, c) ==> le(a, c))
  }

  /** Put `x` before the first member it does not come after. */
  function Insert<T(!new)>(le: (T, T) -> bool, x: T, s: seq<T>): (r: seq<T>)
    ensures forall y :: y in r <==> y == x || y in s
  {
    if s == [] || le(x, s[0]) then [x] + s else [s[0]] + Insert(le, x, s[1..])
  }

  function SortBy<T(!new)>(le: (T, T) -> bool, s: seq<T>): (r: seq<T>)
    ensures forall y :: y in r <==> y in s
  {
    if s == [] then [] else Insert(le, s[0], SortBy(le, s[1..]))
  }

  lemma {:induction false} InsertKeepsNoDup<T(!new)>(le: (T, T) -> bool, x: T, s: seq<T>)
    requires NoDup(s) && x !in s
    ensures NoDup(Insert(le, x, s)) && |Insert(le, x, s)| == |s| + 1
  {
    if s != [] && !le(x, s[0]) {
      InsertKeepsNoDup(le, x, s[1..]);
      assert Insert(le, x, s)[1..] == Insert(le, x, s[1..]);
    } else {
      assert ([x] + s)[1..] == s;
    }
  }

  lemma {:induction false} SortKeepsNoDup<T(!new)>(le: (T, T) -> bool, s: seq<T>)
    requires NoDup(s)
    ensures NoDup(SortBy(le, s)) && |SortBy(le, s)| == |s|
  {
    if s != [] {
      SortKeepsNoDup(le, s[1..]);
      InsertKeepsNoDup(le, s[0], SortBy(le, s[1..]));
    }
  }

  lemma {:induction false} ConsOrders<T>(le: (T, T) -> bool, x: T, s: seq<T>)
    requires Ordered(le, s) && forall y :: y in s ==> le(x, y)
    ensures Ordered(le, [x] + s)
  {
    var r := [x] + s;
    forall i, j | 0 <= i < j < |r| ensures le(r[i], r[j]) {
      assert r[j] == s[j - 1];
      if i > 0 { assert r[i] == s[i - 1]; }
    }
  }

  lemma {:induction false} InsertOrders<T(!new)>(le: (T, T) -> bool, x: T, s: seq<T>)
    requires Ordered(le, s) && Preorder(le)
    ensures Ordered(le, Insert(le, x, s))
  {
    if s != [] {
      forall y | y in s ensures le(s[0], y) {
        var k :| 0 <= k < |s| && s[k] == y;
        assert le(s[0], s[0]);
      }
      if le(x, s[0]) {
        ConsOrders(le, x, s);
      } else {
        InsertOrders(le, x, s[1..]);
        ConsOrders(le, s[0], Insert(le, x, s[1..]));
      }
    }
  }

  lemma {:induction false} SortOrders<T(!new)>(le: (T, T) -> bool, s: seq<T>)
    requires Preorder(le)
    ensures Ordered(le, SortBy(le, s))
  {
    if s != [] {
      SortOrders(le, s[1..]);
      InsertOrders(le, s[0], SortBy(le, s[1..]));
    }
  }

  /** With no ties, an order leaves only one way to list the same members. */
  lemma {:induction false} OrderIsUnique<T(!new)>(le: (T, T) -> bool, a: seq<T>, b: seq<T>)
    requires Preorder(le) && Ordered(le, a) && Ordered(le, b) && NoDup(a) && NoDup(b)
    requires Members(a) == Members(b)
    requires forall x, y :: x in a && y in a && le(x, y) && le(y, x) ==> x == y
    ensures a == b
    decreases |a|
  {
    assert forall x :: x in a <==> x in Members(a);
    assert forall x :: x in b <==> x in Members(b);
    assert Members(a) == {} ==> a == [] by { if a != [] { assert a[0] in a; } }
    assert Members(b) == {} ==> b == [] by { if b != [] { assert b[0] in b; } }
    if a != [] && b != [] {
      var i, j := IndexOf(b, a[0]), IndexOf(a, b[0]);
      assert le(a[0], a[0]) && le(b[0], b[0]);
      assert le(b[0], b[i]) && le(a[0], a[j]);
      assert a == [a[0]] + a[1..] && b == [b[0]] + b[1..];
      assert Members(a[1..]) == Members(a) - {a[0]};
      assert Members(b[1..]) == Members(b) - {b[0]};
      OrderIsUnique(le, a[1..], b[1..]);
    }
  }
}
