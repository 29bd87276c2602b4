/** What a preload returns (src/txn.rs, src/keys.rs): the first promises, in id
    order, that share a branch. */
module Preloads {
  import opened Records
  import opened Queues
  import opened Transaction
  import opened Text
  import opened Kernel
  import opened Invariant
  import opened Keys

  // ------------------------------------------------------------- ascending order

  lemma {:induction false} LeastIsUnique(m: string, n: string, s: set<string>)
    requires IsLeast(m, s) && IsLeast(n, s)
    ensures m == n
  {
    BelowTotal(m, n);
  }

  lemma AscendingTail(r: seq<string>)
    requires Ascending(r) && r != []
    ensures Ascending(r[1..]) && r[0] !in r[1..]
    ensures forall x :: x in r[1..] ==> Below(r[0], x)
  {
    BelowTotal(r[0], r[0]);
  }

  /** The ascending list of a set is unique. */
  lemma {:induction false} AscendingIsSorted(r: seq<string>, s: set<string>)
    requires Ascending(r) && forall x :: x in r <==> x in s
    ensures r == Sorted(s)
    decreases |r|
  {
    if r == [] {
      assert s == {};
    } else {
      AscendingTail(r);
      HeadIsLeast(r, s);
      SortedCons(s);
      hide Ascending, IsLeast, Sorted;
      assert forall x :: x in r <==> x == r[0] || x in r[1..];
      AscendingIsSorted(r[1..], s - {r[0]});
    }
  }

  lemma HeadIsLeast(r: seq<string>, s: set<string>)
    requires Ascending(r) && r != [] && forall x :: x in r <==> x in s
    ensures s != {} && Least(s) == r[0]
  {
    assert r[0] in s;
    assert IsLeast(r[0], s);
    LeastIsUnique(r[0], Least(s), s);
  }

  lemma SortedCons(s: set<string>)
    requires s != {}
    ensures Sorted(s) == [Least(s)] + Sorted(s - {Least(s)})
  {
  }

  lemma LeastIsIn(s: set<string>)
    requires s != {}
    ensures exists m :: m in s && IsLeast(m, s)
  {
    LeastExists(s);
    var m :| IsLeast(m, s);
    assert m in s;
  }

  lemma SortedStep(s: set<string>, m: string)
    requires IsLeast(m, s)
    ensures s != {} && Sorted(s) == [m] + Sorted(s - {m})
  {
    assert m in s;
    LeastIsUnique(m, Least(s), s);
    hide IsLeast;
    SortedCons(s);
  }

  lemma SortedOfNone()
    ensures Sorted({}) == []
  {
  }

  /** Every element of `b` is below `x`. */
  ghost predicate AllBelow(b: set<string>, x: string) {
    forall y :: y in b ==> Below(y, x)
  }

  /** At least `n` of the elements of `some` are below `x`. */
  ghost predicate HasBelow(some: set<string>, x: string, n: int) {
    exists b: set<string> :: b <= some && |b| >= n && AllBelow(b, x)
  }

  lemma FewerBelow(some: set<string>, x: string, n: nat, m: string)
    requires HasBelow(some, x, n + 1)
    ensures HasBelow(some - {m}, x, n)
  {
    var b: set<string> :| b <= some && |b| >= n + 1 && AllBelow(b, x);
    assert |b - {m}| >= n by { assert b <= (b - {m}) + {m}; RemoveOne(b, m); }
    assert b - {m} <= some - {m} && AllBelow(b - {m}, x);
  }

  lemma RemoveOne(b: set<string>, m: string)
    ensures |b - {m}| >= |b| - 1
  {
    if m in b {
      assert b == (b - {m}) + {m};
    } else {
      assert b - {m} == b;
    }
  }

  lemma LeastIsShared(some: set<string>, all: set<string>)
    requires some <= all && all != {} && forall x :: x in all && x !in some ==> HasBelow(some, x, 1)
    ensures some != {} && Least(some) == Least(all)
  {
    var m := Least(all);
    if m !in some {
      var b: set<string> :| b <= some && |b| >= 1 && AllBelow(b, m);
      var y :| y in b;
      BelowTotal(y, m);
    }
    LeastIsUnique(Least(some), m, some);
  }

  lemma TruncateCons<T>(m: T, r: seq<T>, n: nat)
    requires n > 0
    ensures Truncate([m] + r, n) == [m] + Truncate(r, n - 1)
  {
  }

  lemma FewerIsEnough(some: set<string>, x: string, n: nat, k: nat)
    requires HasBelow(some, x, n) && k <= n
    ensures HasBelow(some, x, k)
  {
    var b: set<string> :| b <= some && |b| >= n && AllBelow(b, x);
    assert |b| >= k;
  }

  /** Elements with `n` others below them are not among the first `n`. */
  lemma {:induction false} FirstOfSome(some: set<string>, all: set<string>, n: nat)
    requires some <= all && forall x :: x in all && x !in some ==> HasBelow(some, x, n)
    ensures Truncate(Sorted(some), n) == Truncate(Sorted(all), n)
    decreases n
  {
    if all == {} {
      assert some == {};
    } else if n > 0 {
      hide HasBelow, Ascending, IsLeast;
      forall x | x in all && x !in some ensures HasBelow(some, x, 1) {
        FewerIsEnough(some, x, n, 1);
      }
      LeastIsShared(some, all);
      var m := Least(all);
      forall x | x in all - {m} && x !in some - {m} ensures HasBelow(some - {m}, x, n - 1) {
        FewerBelow(some, x, n - 1, m);
      }
      FirstOfSome(some - {m}, all - {m}, n - 1);
      SortedCons(some);
      SortedCons(all);
      TruncateCons(m, Sorted(some - {m}), n);
      TruncateCons(m, Sorted(all - {m}), n);
      hide Truncate, Sorted;
    }
  }

  /** What a scan leaves out is above everything it returned. */
  lemma ScannedIsBelow(all: seq<Id>, scanned: seq<Id>, x: Id)
    requires Ascending(all) && scanned <= all && x in all && x !in scanned
    ensures AllBelow((set id | id in scanned), x)
  {
    var k :| 0 <= k < |all| && all[k] == x;
    assert k >= |scanned| by {
      assert scanned == all[..|scanned|];
      assert forall i :: 0 <= i < |scanned| ==> scanned[i] == all[i] && scanned[i] in scanned;
    }
    forall y | y in scanned ensures Below(y, x) {
      var i :| 0 <= i < |scanned| && scanned[i] == y;
      assert all[i] == y;
    }
  }

  lemma AscendingPrefix(all: seq<Id>, scanned: seq<Id>)
    requires Ascending(all) && scanned <= all
    ensures Ascending(scanned) && |(set id | id in scanned)| == |scanned|
  {
    var b := set id | id in scanned;
    assert forall i :: 0 <= i < |scanned| ==> scanned[i] == all[i];
    AscendingIsSorted(scanned, b);
  }

  /** The bounded scan is enough: the first `limit + 1` committed ids, merged with
      the ids this request wrote, have the same first `limit` as all of them. */
  lemma BoundedScanIsEnough(committed: set<Id>, scanned: seq<Id>, written: set<Id>, limit: nat)
    requires scanned <= Sorted(committed) && (scanned == Sorted(committed) || |scanned| > limit)
    ensures Truncate(Sorted((set id | id in scanned) + written), limit) == Truncate(Sorted(committed + written), limit)
  {
    hide Sorted, Ascending, Truncate;
    var b := set id | id in scanned;
    var some, all := b + written, committed + written;
    AscendingPrefix(Sorted(committed), scanned);
    forall x | x in all && x !in some ensures HasBelow(some, x, limit) {
      ScannedIsBelow(Sorted(committed), scanned, x);
      assert b <= some && |b| >= limit && AllBelow(b, x);
    }
    assert some <= all by {
      forall x | x in b ensures x in committed {
        assert x in Sorted(committed);
      }
    }
    FirstOfSome(some, all, limit);
  }

  // ---------------------------------------------------------------- key prefixes

  lemma {:induction false} BelowWithPrefix(prefix: string, a: string, b: string)
    ensures Below(prefix + a, prefix + b) <==> Below(a, b)
  {
    if prefix == "" {
      assert prefix + a == a && prefix + b == b;
    } else {
      BelowWithPrefix(prefix[1..], a, b);
      assert (prefix + a)[1..] == prefix[1..] + a && (prefix + b)[1..] == prefix[1..] + b;
    }
  }

  lemma {:induction false} PrefixIsFirst(prefix: string, k: string)
    requires prefix <= k
    ensures !Below(k, prefix)
  {
    if prefix != "" {
      PrefixIsFirst(prefix[1..], k[1..]);
    }
  }

  /** The keys with a prefix are next to each other in key order: after the first
      key at or past the prefix that does not have it, none has. */
  lemma {:induction false} PrefixIsContiguous(prefix: string, a: string, b: string)
    requires !Below(a, prefix) && !(prefix <= a) && Below(a, b)
    ensures !(prefix <= b)
  {
    if a != "" && prefix[0] == a[0] == b[0] {
      assert prefix == [prefix[0]] + prefix[1..] && a == [a[0]] + a[1..];
      PrefixIsContiguous(prefix[1..], a[1..], b[1..]);
    }
  }

  /** The ids that keys spell after a prefix of `n` characters, without `skip`. */
  function Suffixes(keys: seq<string>, n: nat, skip: Id): seq<Id>
    requires forall k :: k in keys ==> n <= |k|
  {
    if keys == [] then []
    else
      var last := |keys| - 1;
      var id := keys[last][n..];
      Suffixes(keys[..last], n, skip) + (if id == skip then [] else [id])
  }

  lemma {:induction false} SuffixesAscend(keys: seq<string>, prefix: string, skip: Id)
    requires Ascending(keys) && forall k :: k in keys ==> prefix <= k
    ensures Ascending(Suffixes(keys, |prefix|, skip))
    ensures forall id :: id in Suffixes(keys, |prefix|, skip) <==> id != skip && prefix + id in keys
    decreases |keys|
  {
    if keys != [] {
      var last := |keys| - 1;
      assert keys[last] in keys && forall k :: k in keys[..last] ==> k in keys;
      SuffixesAscend(keys[..last], prefix, skip);
      var id := SpelledId(prefix, keys[last]);
      LastSuffix(keys, prefix, Suffixes(keys[..last], |prefix|, skip), id, skip);
    }
  }

  lemma LastSuffix(keys: seq<string>, prefix: string, before: seq<Id>, id: Id, skip: Id)
    requires keys != [] && Ascending(keys) && keys[|keys| - 1] == prefix + id && Ascending(before)
    requires forall x :: x in before <==> x != skip && prefix + x in keys[..|keys| - 1]
    ensures var r := before + (if id == skip then [] else [id]);
            Ascending(r) && forall x :: x in r <==> x != skip && prefix + x in keys
  {
    var last := |keys| - 1;
    forall x | x in before ensures Below(x, id) {
      assert prefix + x in keys[..last];
      var i :| 0 <= i < last && keys[i] == prefix + x;
      BelowWithPrefix(prefix, x, id);
    }
    SpelledOnce(prefix, id);
    assert forall k :: k in keys <==> k in keys[..last] || k == keys[last];
  }

  lemma SpelledId(prefix: string, k: string) returns (id: Id)
    requires prefix <= k
    ensures id == k[|prefix|..] && k == prefix + id
  {
    id := k[|prefix|..];
    assert k[..|prefix|] == prefix;
  }

  lemma NoSuffix(n: nat, skip: Id)
    ensures Suffixes([], n, skip) == []
  {
  }

  lemma NextSuffix(keys: seq<string>, n: nat, skip: Id, i: nat)
    requires i < |keys| && forall k :: k in keys ==> n <= |k|
    ensures n <= |keys[i]|
    ensures Suffixes(keys[..i + 1], n, skip) ==
              Suffixes(keys[..i], n, skip) + (if keys[i][n..] == skip then [] else [keys[i][n..]])
  {
    assert keys[i] in keys && keys[..i + 1][..i] == keys[..i];
  }

  lemma {:induction false} SuffixesOfPrefix(keys: seq<string>, n: nat, skip: Id, i: nat)
    requires i <= |keys| && forall k :: k in keys ==> n <= |k|
    ensures Suffixes(keys[..i], n, skip) <= Suffixes(keys, n, skip)
    decreases |keys|
  {
    if i < |keys| {
      SuffixesOfPrefix(keys[..|keys| - 1], n, skip, i);
      assert keys[..|keys| - 1][..i] == keys[..i];
    } else {
      assert keys[..i] == keys;
    }
  }

  lemma SpelledOnce(prefix: string, id: Id)
    ensures forall x :: prefix + x == prefix + id <==> x == id
  {
    forall x | prefix + x == prefix + id ensures x == id {
      assert (prefix + x)[|prefix|..] == x && (prefix + id)[|prefix|..] == id;
    }
  }
}
