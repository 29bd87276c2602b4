/** Paging through a search: pages are ordered and disjoint, following the
    cursors ends, and nothing that stays is missed or repeated, although other
    records come, change and go between the pages (src/kernel.rs). */
module Paging {
  import opened Records
  import opened Transaction
  import opened Text
  import opened Kernel
  import opened Invariant

  ghost predicate AscendingBy<T>(items: seq<T>, idOf: T -> Id) {
    forall i, j :: 0 <= i < j < |items| ==> Below(idOf(items[i]), idOf(items[j]))
  }

  predicate After(cursor: Option<Id>, id: Id) {
    cursor.None? || Below(cursor.value, id)
  }

  // -------------------------------------------------------------------- one page

  lemma {:induction false} FilterAscends<T>(items: seq<T>, keep: T -> bool, idOf: T -> Id)
    requires AscendingBy(items, idOf)
    ensures AscendingBy(FilterSeq(items, keep), idOf)
  {
    if items != [] {
      var rest := FilterSeq(items[1..], keep);
      FilterAscends(items[1..], keep, idOf);
      forall x | x in rest ensures Below(idOf(items[0]), idOf(x)) {
        assert x in items[1..];
        var k :| 0 <= k < |items[1..]| && items[1..][k] == x;
        assert items[k + 1] == x;
      }
    }
  }

  lemma FiltersAscend<T>(items: seq<T>, idOf: T -> Id)
    requires AscendingBy(items, idOf)
    ensures forall keep: T -> bool :: AscendingBy(FilterSeq(items, keep), idOf)
  {
    forall keep: T -> bool ensures AscendingBy(FilterSeq(items, keep), idOf) {
      FilterAscends(items, keep, idOf);
    }
  }

  /** The items after the cursor, in order, as `Page` filters them. */
  ghost predicate IsRest<T(!new)>(items: seq<T>, idOf: T -> Id, cursor: Option<Id>, rest: seq<T>) {
    && AscendingBy(rest, idOf)
    && (forall x :: x in rest <==> x in items && After(cursor, idOf(x)))
  }

  lemma PageOfRest<T(!new)>(items: seq<T>, idOf: T -> Id, cursor: Option<Id>, limit: nat) returns (rest: seq<T>)
    requires limit > 0 && AscendingBy(items, idOf)
    ensures IsRest(items, idOf, cursor, rest)
    ensures Page(items, idOf, cursor, limit) ==
              if |rest| > limit then (rest[..limit], Some(idOf(rest[limit - 1]))) else (rest, None)
  {
    FiltersAscend(items, idOf);
    rest := FilterSeq(items, x => cursor.None? || Below(cursor.value, idOf(x)));
    hide AscendingBy;
  }

  lemma CutOff<T>(rest: seq<T>, idOf: T -> Id, limit: nat, x: T)
    requires 0 < limit < |rest| && AscendingBy(rest, idOf) && x in rest
    ensures x in rest[..limit] <==> !Below(idOf(rest[limit - 1]), idOf(x))
  {
    var k :| 0 <= k < |rest| && rest[k] == x;
    BelowTotal(idOf(rest[limit - 1]), idOf(x));
    BelowTotal(idOf(x), idOf(x));
    if k < limit {
      assert rest[..limit][k] == x;
    }
  }

  /** A page contains exactly the items between its cursor and the next one. */
  lemma PageShape<T(!new)>(items: seq<T>, idOf: T -> Id, cursor: Option<Id>, limit: nat)
    requires limit > 0 && AscendingBy(items, idOf)
    ensures var (page, next) := Page(items, idOf, cursor, limit);
            && AscendingBy(page, idOf) && |page| <= limit
            && (next.Some? ==> |page| == limit && next.value == idOf(page[limit - 1]) && After(cursor, next.value))
            && (forall x :: x in page <==>
                  x in items && After(cursor, idOf(x)) && (next.None? || !Below(next.value, idOf(x))))
  {
    var rest := PageOfRest(items, idOf, cursor, limit);
    hide Page;
    if |rest| > limit {
      assert rest[limit - 1] in rest;
      forall x ensures x in rest[..limit] <==> x in rest && !Below(idOf(rest[limit - 1]), idOf(x)) {
        if x in rest {
          CutOff(rest, idOf, limit, x);
        }
      }
    }
  }

  // ----------------------------------------------------------- following cursors

  /** `pages` are the pages a client reads by following the cursors, each from the
      list of matching items as it is then. */
  ghost predicate Follows<T(!new)>(lists: seq<seq<T>>, idOf: T -> Id, limit: nat,
                                   pages: seq<seq<T>>, cursors: seq<Option<Id>>) {
    && limit > 0 && |pages| == |lists| && |cursors| == |pages| + 1 && cursors[0].None?
    && (forall j :: 0 <= j < |pages| ==> PageAt(lists[j], idOf, limit, cursors[j], pages[j], cursors[j + 1]))
    && (forall j :: 0 < j < |pages| ==> cursors[j].Some?)
  }

  ghost predicate PageAt<T>(items: seq<T>, idOf: T -> Id, limit: nat, cursor: Option<Id>, page: seq<T>, next: Option<Id>)
    requires limit > 0
  {
    AscendingBy(items, idOf) && Page(items, idOf, cursor, limit) == (page, next)
  }

  lemma {:induction false} CursorsAscend<T(!new)>(lists: seq<seq<T>>, idOf: T -> Id, limit: nat,
                                                  pages: seq<seq<T>>, cursors: seq<Option<Id>>, i: nat, j: nat)
    requires Follows(lists, idOf, limit, pages, cursors) && 0 < i < j < |cursors| && cursors[j].Some?
    ensures cursors[i].Some? && Below(cursors[i].value, cursors[j].value)
    decreases j
  {
    assert PageAt(lists[j - 1], idOf, limit, cursors[j - 1], pages[j - 1], cursors[j]);
    PageShape(lists[j - 1], idOf, cursors[j - 1], limit);
    hide Page, AscendingBy;
    if i < j - 1 {
      CursorsAscend(lists, idOf, limit, pages, cursors, i, j - 1);
      BelowTransitive(cursors[i].value, cursors[j - 1].value, cursors[j].value);
    }
  }

  lemma BelowOrNot(a: Id, b: Id, c: Id)
    requires !Below(b, a) && Below(b, c)
    ensures Below(a, c)
  {
    BelowTotal(a, b);
    if a != b {
      BelowTransitive(a, b, c);
    }
  }

  /** Every item of an earlier page is before every item of a later one, so no item
      is returned twice. */
  lemma PagesAreOrdered<T(!new)>(lists: seq<seq<T>>, idOf: T -> Id, limit: nat, pages: seq<seq<T>>,
                                 cursors: seq<Option<Id>>, i: nat, j: nat, x: T, y: T)
    requires Follows(lists, idOf, limit, pages, cursors) && i < j < |pages| && x in pages[i] && y in pages[j]
    ensures Below(idOf(x), idOf(y))
  {
    assert PageAt(lists[i], idOf, limit, cursors[i], pages[i], cursors[i + 1]);
    assert PageAt(lists[j], idOf, limit, cursors[j], pages[j], cursors[j + 1]);
    PageShape(lists[i], idOf, cursors[i], limit);
    PageShape(lists[j], idOf, cursors[j], limit);
    hide Page, AscendingBy;
    BelowOrNot(idOf(x), cursors[i + 1].value, idOf(y)) by {
      if i + 1 < j {
        CursorsAscend(lists, idOf, limit, pages, cursors, i + 1, j);
        BelowTransitive(cursors[i + 1].value, cursors[j].value, idOf(y));
      }
    }
  }

  ghost predicate Has<T>(items: seq<T>, idOf: T -> Id, id: Id) {
    exists x :: x in items && idOf(x) == id
  }

  /** What the first `n` pages have not returned is after their cursor. */
  lemma {:induction false} NothingIsMissed<T(!new)>(lists: seq<seq<T>>, idOf: T -> Id, limit: nat, pages: seq<seq<T>>,
                                                    cursors: seq<Option<Id>>, n: nat, id: Id)
    requires Follows(lists, idOf, limit, pages, cursors) && n <= |pages|
    requires forall j :: 0 <= j < |lists| ==> Has(lists[j], idOf, id)
    ensures (exists j :: 0 <= j < n && Has(pages[j], idOf, id)) || ((n == 0 || cursors[n].Some?) && After(cursors[n], id))
    decreases n
  {
    if n > 0 {
      var k := n - 1;
      NothingIsMissed(lists, idOf, limit, pages, cursors, k, id);
      if forall j :: 0 <= j < k ==> !Has(pages[j], idOf, id) {
        assert PageAt(lists[k], idOf, limit, cursors[k], pages[k], cursors[n]);
        PageShape(lists[k], idOf, cursors[k], limit);
        assert Has(lists[k], idOf, id);
        var x :| x in lists[k] && idOf(x) == id;
        if x in pages[k] {
          assert Has(pages[k], idOf, id);
        }
      }
    }
  }

  /** An id that is listed every time a page is read is returned by exactly one of
      the pages, once the last page names no cursor. */
  lemma WhatStaysIsReturnedOnce<T(!new)>(lists: seq<seq<T>>, idOf: T -> Id, limit: nat, pages: seq<seq<T>>,
                                         cursors: seq<Option<Id>>, id: Id)
    requires Follows(lists, idOf, limit, pages, cursors) && pages != [] && cursors[|pages|].None?
    requires forall j :: 0 <= j < |lists| ==> Has(lists[j], idOf, id)
    ensures exists j :: 0 <= j < |pages| && Has(pages[j], idOf, id)
              && forall k :: 0 <= k < |pages| && Has(pages[k], idOf, id) ==> k == j
  {
    NothingIsMissed(lists, idOf, limit, pages, cursors, |pages|, id);
    var j :| 0 <= j < |pages| && Has(pages[j], idOf, id);
    forall k | 0 <= k < |pages| && Has(pages[k], idOf, id) ensures k == j {
      var x :| x in pages[j] && idOf(x) == id;
      var y :| y in pages[k] && idOf(y) == id;
      BelowTotal(id, id);
      if k < j {
        PagesAreOrdered(lists, idOf, limit, pages, cursors, k, j, y, x);
      } else if j < k {
        PagesAreOrdered(lists, idOf, limit, pages, cursors, j, k, x, y);
      }
    }
  }

  // ---------------------------------------------------------------- all the pages

  function Flatten<T>(pages: seq<seq<T>>): seq<T> {
    if pages == [] then [] else Flatten(pages[..|pages| - 1]) + pages[|pages| - 1]
  }

  lemma {:induction false} InFlatten<T>(pages: seq<seq<T>>, x: T)
    ensures x in Flatten(pages) <==> exists j :: 0 <= j < |pages| && x in pages[j]
  {
    if pages != [] {
      var last := |pages| - 1;
      InFlatten(pages[..last], x);
      if x in Flatten(pages[..last]) {
        var j :| 0 <= j < last && x in pages[..last][j];
        assert x in pages[j];
      }
      if exists j :: 0 <= j < |pages| && x in pages[j] {
        var j :| 0 <= j < |pages| && x in pages[j];
        assert j < last ==> x in pages[..last][j];
      }
    }
  }

  lemma FollowsPrefix<T(!new)>(lists: seq<seq<T>>, idOf: T -> Id, limit: nat, pages: seq<seq<T>>,
                               cursors: seq<Option<Id>>, n: nat)
    requires Follows(lists, idOf, limit, pages, cursors) && n <= |pages|
    ensures Follows(lists[..n], idOf, limit, pages[..n], cursors[..n + 1])
  {
    hide PageAt;
  }

  /** The pages together are in id order, and every page but the last is full. */
  lemma {:induction false} PagesTogetherAscend<T(!new)>(lists: seq<seq<T>>, idOf: T -> Id, limit: nat,
                                                        pages: seq<seq<T>>, cursors: seq<Option<Id>>)
    requires Follows(lists, idOf, limit, pages, cursors)
    ensures AscendingBy(Flatten(pages), idOf)
    ensures |Flatten(pages)| >= limit * (if pages != [] && cursors[|pages|].None? then |pages| - 1 else |pages|)
    decreases |pages|
  {
    if pages != [] {
      var n := |pages| - 1;
      FollowsPrefix(lists, idOf, limit, pages, cursors, n);
      PagesTogetherAscend(lists[..n], idOf, limit, pages[..n], cursors[..n + 1]);
      LastPageFollows(lists, idOf, limit, pages, cursors);
      FullPages(|Flatten(pages[..n])|, |pages[n]|, limit, n, cursors[n + 1].Some?);
    }
  }

  lemma FullPages(before: nat, last: nat, limit: nat, n: nat, more: bool)
    requires before >= limit * n && (more ==> last == limit)
    ensures before + last >= limit * (if more then n + 1 else n)
  {
  }

  lemma LastPageFollows<T(!new)>(lists: seq<seq<T>>, idOf: T -> Id, limit: nat, pages: seq<seq<T>>, cursors: seq<Option<Id>>)
    requires Follows(lists, idOf, limit, pages, cursors) && pages != []
    requires AscendingBy(Flatten(pages[..|pages| - 1]), idOf)
    ensures AscendingBy(Flatten(pages), idOf)
    ensures cursors[|pages|].Some? ==> |pages[|pages| - 1]| == limit
  {
    var n := |pages| - 1;
    var before, last := Flatten(pages[..n]), pages[n];
    assert PageAt(lists[n], idOf, limit, cursors[n], pages[n], cursors[n + 1]);
    PageShape(lists[n], idOf, cursors[n], limit);
    forall x, y | x in before && y in last ensures Below(idOf(x), idOf(y)) {
      InFlatten(pages[..n], x);
      var i :| 0 <= i < n && x in pages[..n][i];
      PagesAreOrdered(lists, idOf, limit, pages, cursors, i, n, x, y);
    }
    hide Page, Follows, PageAt;
    assert Flatten(pages) == before + last;
    JoinAscends(before, last, idOf);
  }

  lemma JoinAscends<T>(a: seq<T>, b: seq<T>, idOf: T -> Id)
    requires AscendingBy(a, idOf) && AscendingBy(b, idOf)
    requires forall x, y :: x in a && y in b ==> Below(idOf(x), idOf(y))
    ensures AscendingBy(a + b, idOf)
  {
  }

  lemma {:induction false} DistinctIdsFit<T>(items: seq<T>, idOf: T -> Id, ids: set<Id>)
    requires AscendingBy(items, idOf) && forall x :: x in items ==> idOf(x) in ids
    ensures |items| <= |ids|
    decreases |items|
  {
    if items != [] {
      var last := |items| - 1;
      var id := idOf(items[last]);
      forall x | x in items[..last] ensures idOf(x) in ids - {id} {
        BelowTotal(idOf(x), id);
      }
      DistinctIdsFit(items[..last], idOf, ids - {id});
    }
  }

  /** Following the cursors ends: when every id listed is one of `ids`, there are no
      more pages than their number allows. */
  lemma CursorsEnd<T(!new)>(lists: seq<seq<T>>, idOf: T -> Id, limit: nat, pages: seq<seq<T>>,
                            cursors: seq<Option<Id>>, ids: set<Id>)
    requires Follows(lists, idOf, limit, pages, cursors) && pages != []
    requires forall j, x :: 0 <= j < |lists| && x in lists[j] ==> idOf(x) in ids
    ensures limit * (|pages| - 1) <= |ids|
  {
    PagesTogetherAscend(lists, idOf, limit, pages, cursors);
    PagesAreListed(lists, idOf, limit, pages, cursors);
    forall x | x in Flatten(pages) ensures idOf(x) in ids {
      var j :| 0 <= j < |lists| && x in lists[j];
    }
    hide Follows, Flatten, AscendingBy;
    DistinctIdsFit(Flatten(pages), idOf, ids);
    OneFewer(limit, |pages|);
  }

  lemma OneFewer(limit: nat, n: nat)
    requires n > 0
    ensures limit * (n - 1) <= limit * n
  {
  }

  lemma PagesAreListed<T(!new)>(lists: seq<seq<T>>, idOf: T -> Id, limit: nat, pages: seq<seq<T>>, cursors: seq<Option<Id>>)
    requires Follows(lists, idOf, limit, pages, cursors)
    ensures forall x :: x in Flatten(pages) ==> exists j :: 0 <= j < |lists| && x in lists[j]
  {
    forall x | x in Flatten(pages) ensures exists j :: 0 <= j < |lists| && x in lists[j] {
      InFlatten(pages, x);
      var j :| 0 <= j < |pages| && x in pages[j];
      assert PageAt(lists[j], idOf, limit, cursors[j], pages[j], cursors[j + 1]);
      PageShape(lists[j], idOf, cursors[j], limit);
    }
  }

  lemma NothingIn<T(!new)>(a: seq<T>)
    requires forall x :: x !in a
    ensures a == []
  {
    if a != [] {
      HeadIn(a);
      assert false;
    }
  }

  lemma HeadIn<T>(a: seq<T>)
    requires a != []
    ensures a[0] in a
  {
  }

  lemma {:induction false} SameItemsSameOrder<T(!new)>(a: seq<T>, b: seq<T>, idOf: T -> Id)
    requires AscendingBy(a, idOf) && AscendingBy(b, idOf) && forall x :: x in a <==> x in b
    ensures a == b
    decreases |a|
  {
    if a == [] {
      NothingIn(b);
    } else if b == [] {
      NothingIn(a);
    } else {
      assert a[0] in b && b[0] in a;
      var i :| 0 <= i < |b| && b[i] == a[0];
      var j :| 0 <= j < |a| && a[j] == b[0];
      BelowTotal(idOf(a[0]), idOf(b[0]));
      assert a[0] == b[0];
      forall x ensures x in a[1..] <==> x in b[1..] {
        TailHas(a, idOf, x);
        TailHas(b, idOf, x);
      }
      SameItemsSameOrder(a[1..], b[1..], idOf);
    }
  }

  lemma TailHas<T>(a: seq<T>, idOf: T -> Id, x: T)
    requires AscendingBy(a, idOf) && a != []
    ensures x in a[1..] <==> x in a && x != a[0]
  {
    BelowTotal(idOf(a[0]), idOf(a[0]));
    if x in a && x != a[0] {
      var k :| 0 <= k < |a| && a[k] == x;
      assert a[1..][k - 1] == x;
    }
  }

  /** On a store that does not change the pages together are the whole list. */
  lemma PagesOfAFixedStore<T(!new)>(items: seq<T>, lists: seq<seq<T>>, idOf: T -> Id, limit: nat, pages: seq<seq<T>>,
                                    cursors: seq<Option<Id>>)
    requires Follows(lists, idOf, limit, pages, cursors) && pages != [] && cursors[|pages|].None?
    requires forall j :: 0 <= j < |lists| ==> lists[j] == items
    ensures Flatten(pages) == items
  {
    PagesTogetherAscend(lists, idOf, limit, pages, cursors);
    assert PageAt(lists[0], idOf, limit, cursors[0], pages[0], cursors[1]);
    forall x ensures x in Flatten(pages) <==> x in items {
      InFlatten(pages, x);
      if x in Flatten(pages) {
        PagesAreListed(lists, idOf, limit, pages, cursors);
      } else if x in items {
        StaysItself(items, lists, idOf, limit, pages, cursors, x);
      }
    }
    SameItemsSameOrder(Flatten(pages), items, idOf);
  }

  lemma StaysItself<T(!new)>(items: seq<T>, lists: seq<seq<T>>, idOf: T -> Id, limit: nat, pages: seq<seq<T>>,
                             cursors: seq<Option<Id>>, x: T)
    requires Follows(lists, idOf, limit, pages, cursors) && pages != [] && cursors[|pages|].None?
    requires forall j :: 0 <= j < |lists| ==> lists[j] == items
    requires x in items
    ensures exists j :: 0 <= j < |pages| && x in pages[j]
  {
    forall j | 0 <= j < |lists| ensures Has(lists[j], idOf, idOf(x)) {
    }
    WhatStaysIsReturnedOnce(lists, idOf, limit, pages, cursors, idOf(x));
    var j :| 0 <= j < |pages| && Has(pages[j], idOf, idOf(x));
    assert PageAt(lists[j], idOf, limit, cursors[j], pages[j], cursors[j + 1]);
    PageShape(lists[j], idOf, cursors[j], limit);
    var y :| y in pages[j] && idOf(y) == idOf(x);
    var k :| 0 <= k < |items| && items[k] == y;
    var l :| 0 <= l < |items| && items[l] == x;
    BelowTotal(idOf(x), idOf(x));
  }
}
