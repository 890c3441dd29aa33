/** ORDER BY, LIMIT and OFFSET over the rows a query selects. */
module Listings {
  import opened Sets

  // ORDER BY key, id.
  predicate Precedes(key: map<int, int>, a: int, b: int)
    requires a in key && b in key
  {
    key[a] < key[b] || (key[a] == key[b] && a < b)
  }

  ghost predicate Selects(ids: set<int>, s: seq<int>) {
    (forall x | x in ids :: x in s) && (forall i | 0 <= i < |s| :: s[i] in ids)
  }

  ghost predicate Ordered(key: map<int, int>, s: seq<int>) {
    && (forall i | 0 <= i < |s| :: s[i] in key)
    && (forall i, j | 0 <= i < j < |s| :: Precedes(key, s[i], s[j]))
  }

  // The selected rows in order, each once.
  ghost predicate IsListing(key: map<int, int>, ids: set<int>, s: seq<int>) {
    Selects(ids, s) && Ordered(key, s)
  }

  lemma {:induction false} ListingCounts(key: map<int, int>, ids: set<int>, s: seq<int>)
    requires IsListing(key, ids, s)
    ensures |s| == |ids|
    decreases |s|
  {
    if s == [] {
      Contained(ids, {});
    } else {
      ListingRest(key, ids, s);
      ListingCounts(key, ids - {s[0]}, s[1..]);
    }
  }

  lemma ListingRest(key: map<int, int>, ids: set<int>, s: seq<int>)
    requires IsListing(key, ids, s) && s != []
    ensures IsListing(key, ids - {s[0]}, s[1..])
  {
    forall x | x in ids - {s[0]}
      ensures x in s[1..]
    {
      var i :| 0 <= i < |s| && s[i] == x;
      assert s[1..][i - 1] == x;
    }
    forall i | 0 <= i < |s[1..]|
      ensures s[1..][i] in ids - {s[0]}
    {
      assert Precedes(key, s[0], s[i + 1]);
    }
  }

  lemma FirstIsLeast(key: map<int, int>, ids: set<int>, s: seq<int>, x: int)
    requires IsListing(key, ids, s) && x in ids
    ensures s != [] && x in key && (x == s[0] || Precedes(key, s[0], x))
  {
    var i :| 0 <= i < |s| && s[i] == x;
  }

  // The order is total, so the query has one answer.
  lemma {:induction false} ListingIsUnique(key: map<int, int>, ids: set<int>, s: seq<int>, t: seq<int>)
    requires IsListing(key, ids, s) && IsListing(key, ids, t)
    ensures s == t
    decreases |s|
  {
    ListingCounts(key, ids, s);
    ListingCounts(key, ids, t);
    if s != [] {
      FirstIsLeast(key, ids, s, t[0]);
      FirstIsLeast(key, ids, t, s[0]);
      assert s[0] == t[0];
      ListingRest(key, ids, s);
      ListingRest(key, ids, t);
      ListingIsUnique(key, ids - {s[0]}, s[1..], t[1..]);
      assert s == [s[0]] + s[1..] && t == [t[0]] + t[1..];
    }
  }

  function Inserted(s: seq<int>, x: int, i: nat): (t: seq<int>)
    requires i <= |s|
    ensures |t| == |s| + 1
    ensures forall k | 0 <= k < |t| :: t[k] == if k < i then s[k] else if k == i then x else s[k - 1]
  {
    s[..i] + [x] + s[i..]
  }

  lemma InsertingSelects(ids: set<int>, s: seq<int>, x: int, i: nat)
    requires Selects(ids, s) && i <= |s|
    ensures Selects(ids + {x}, Inserted(s, x, i))
  {
    var t := Inserted(s, x, i);
    hide Inserted;
    forall y | y in ids + {x}
      ensures y in t
    {
      if y == x {
        assert t[i] == x;
      } else {
        var k :| 0 <= k < |s| && s[k] == y;
        assert t[if k < i then k else k + 1] == y;
      }
    }
  }

  lemma InsertingOrders(key: map<int, int>, s: seq<int>, x: int, i: nat)
    requires Ordered(key, s) && x in key && x !in s && i <= |s|
    requires forall k | 0 <= k < i :: Precedes(key, s[k], x)
    requires i < |s| ==> !Precedes(key, s[i], x)
    ensures Ordered(key, Inserted(s, x, i))
  {
    forall k | i <= k < |s|
      ensures Precedes(key, x, s[k])
    {
      assert k == i || Precedes(key, s[i], s[k]);
      assert s[i] != x;
    }
    var t := Inserted(s, x, i);
    forall a, b | 0 <= a < b < |t|
      ensures Precedes(key, t[a], t[b])
    {
    }
  }

  method Listed(key: map<int, int>, ids: set<int>) returns (s: seq<int>)
    requires ids <= key.Keys
    ensures IsListing(key, ids, s)
  {
    s := [];
    var rest := ids;
    ghost var done: set<int> := {};
    while rest != {}
      invariant rest <= ids && done <= ids
      invariant forall x :: x in ids <==> x in rest || x in done
      invariant forall x | x in done :: x !in rest
      invariant IsListing(key, done, s)
      decreases |rest|
    {
      ghost var some := PickOutside(rest, {});
      var x :| x in rest;
      var i := 0;
      while i < |s| && Precedes(key, s[i], x)
        invariant 0 <= i <= |s|
        invariant forall k | 0 <= k < i :: Precedes(key, s[k], x)
      {
        i := i + 1;
      }
      InsertingSelects(done, s, x, i);
      InsertingOrders(key, s, x, i);
      s, rest, done := Inserted(s, x, i), rest - {x}, done + {x};
    }
  }

  // OFFSET (page - 1) * size LIMIT size; pages count from 1.
  function Page(s: seq<int>, page: nat, size: nat): seq<int>
    requires page >= 1
  {
    FromOffset(s, (page - 1) * size, size)
  }

  function FromOffset(s: seq<int>, offset: int, size: nat): seq<int> {
    if offset < 0 || offset >= |s| then []
    else if offset + size <= |s| then s[offset..offset + size]
    else s[offset..]
  }

  // What the query with this order returns for the page.
  ghost predicate IsPage(key: map<int, int>, ids: set<int>, page: nat, size: nat, rows: seq<int>)
    requires page >= 1
  {
    exists s :: IsListing(key, ids, s) && rows == Page(s, page, size)
  }

  function FirstPages(s: seq<int>, pages: nat, size: nat): seq<int> {
    if pages == 0 then [] else FirstPages(s, pages - 1, size) + Page(s, pages, size)
  }

  function Prefix(s: seq<int>, n: int): seq<int> {
    if n < 0 then [] else if n < |s| then s[..n] else s
  }

  // The pages one after the other are the listing: no row is shown twice and none is skipped.
  lemma {:induction false} PagesAreTheListing(s: seq<int>, pages: nat, size: nat)
    ensures FirstPages(s, pages, size) == Prefix(s, pages * size)
  {
    if pages > 0 {
      PagesAreTheListing(s, pages - 1, size);
      assert pages * size == (pages - 1) * size + size;
      NextPage(s, (pages - 1) * size, size);
    }
  }

  lemma NextPage(s: seq<int>, offset: int, size: nat)
    requires offset >= 0
    ensures Prefix(s, offset) + FromOffset(s, offset, size) == Prefix(s, offset + size)
  {
  }
}
