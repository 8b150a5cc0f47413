/** Counting emotion rows into a dictionary, the way the statistics screens
    and the weekly report do it: `rows.reduce((acc, e) => { acc[e] = (acc[e] || 0) + 1; return acc }, {})`
    followed by `Object.entries`, and the descending sort by count that the
    statistics screens apply afterwards. */
module Tally {

  /** One `[emotion, count]` pair of `Object.entries(acc)`. */
  datatype Entry = Entry(key: string, count: nat)

  predicate HasKey(entries: seq<Entry>, k: string)
  {
    exists j :: 0 <= j < |entries| && entries[j].key == k
  }

  /** Position of the first entry for `k`. */
  function IndexOfKey(entries: seq<Entry>, k: string): (j: nat)
    requires HasKey(entries, k)
    ensures j < |entries| && entries[j].key == k
    ensures forall i :: 0 <= i < j ==> entries[i].key != k
  {
    if entries[0].key == k then 0
    else
      assert HasKey(entries[1..], k) by {
        var j :| 0 <= j < |entries| && entries[j].key == k;
        assert entries[1..][j - 1].key == k;
      }
      1 + IndexOfKey(entries[1..], k)
  }

  /** `acc[k] = (acc[k] || 0) + 1` on a dictionary seen as its entries in
      insertion order: a known key has its count raised in place, a new key is
      added at the end with 1. */
  function Bump(entries: seq<Entry>, k: string): seq<Entry>
  {
    if HasKey(entries, k) then
      var j := IndexOfKey(entries, k);
      entries[j := Entry(k, entries[j].count + 1)]
    else entries + [Entry(k, 1)]
  }

  /** The reduce over all rows, from the first to the last. */
  function TallyOf(keys: seq<string>): seq<Entry>
  {
    if keys == [] then [] else Bump(TallyOf(keys[..|keys| - 1]), keys[|keys| - 1])
  }

  /** No key appears twice: a dictionary, not a list. */
  predicate DistinctKeys(entries: seq<Entry>)
  {
    forall i, j :: 0 <= i < j < |entries| ==> entries[i].key != entries[j].key
  }

  /** The sum of all counts. */
  function Total(entries: seq<Entry>): nat
  {
    if entries == [] then 0 else entries[0].count + Total(entries[1..])
  }

  lemma {:induction false} TotalSplit(a: seq<Entry>, b: seq<Entry>)
    ensures Total(a + b) == Total(a) + Total(b)
  {
    if a == [] {
      assert a + b == b;
    } else {
      assert (a + b)[1..] == a[1..] + b;
      TotalSplit(a[1..], b);
    }
  }

  lemma {:induction false} TotalUpdate(entries: seq<Entry>, j: nat, e: Entry)
    requires j < |entries|
    ensures Total(entries[j := e]) == Total(entries) - entries[j].count + e.count
  {
    if j == 0 {
      assert entries[j := e][1..] == entries[1..];
    } else {
      assert entries[j := e][1..] == entries[1..][j - 1 := e];
      TotalUpdate(entries[1..], j - 1, e);
    }
  }

  /** One reduce step: the entry for `k` goes up by one and nothing else
      changes; a new key becomes the last entry, with count 1. */
  lemma BumpEffect(entries: seq<Entry>, k: string)
    requires DistinctKeys(entries)
    ensures var b := Bump(entries, k);
      && DistinctKeys(b)
      && |b| == (if HasKey(entries, k) then |entries| else |entries| + 1)
      && (forall j :: 0 <= j < |entries| ==>
            b[j].key == entries[j].key
            && b[j].count == entries[j].count + (if entries[j].key == k then 1 else 0))
      && (!HasKey(entries, k) ==> b[|entries|] == Entry(k, 1))
      && Total(b) == Total(entries) + 1
  {
    if HasKey(entries, k) {
      var j := IndexOfKey(entries, k);
      TotalUpdate(entries, j, Entry(k, entries[j].count + 1));
    } else {
      TotalSplit(entries, [Entry(k, 1)]);
      assert Total([Entry(k, 1)]) == 1;
    }
  }

  /** What the reduce computes: one entry per distinct row value, each holding
      the number of rows with that value, the counts summing to the number of
      rows. */
  lemma {:induction false} TallyCounts(keys: seq<string>)
    ensures var t := TallyOf(keys);
      && DistinctKeys(t)
      && (forall j :: 0 <= j < |t| ==> t[j].count == multiset(keys)[t[j].key] && t[j].count >= 1)
      && (forall k :: k in keys <==> HasKey(t, k))
      && Total(t) == |keys|
  {
    if keys != [] {
      var init, last := keys[..|keys| - 1], keys[|keys| - 1];
      assert keys == init + [last];
      assert multiset(keys) == multiset(init) + multiset{last};
      TallyCounts(init);
      var t0 := TallyOf(init);
      BumpEffect(t0, last);
      var t := TallyOf(keys);
      assert t == Bump(t0, last);
      forall k ensures k in keys <==> HasKey(t, k) {
        if k in keys && k != last {
          assert k in init;
          var j :| 0 <= j < |t0| && t0[j].key == k;
          assert t[j].key == k;
        }
        if k == last {
          if HasKey(t0, k) {
            var j :| 0 <= j < |t0| && t0[j].key == k;
            assert t[j].key == k;
          } else {
            assert t[|t0|].key == k;
          }
        }
        if HasKey(t, k) && k != last {
          var j :| 0 <= j < |t| && t[j].key == k;
          if j < |t0| {
            assert t0[j].key == k;
          } else {
            assert t[|t0|].key == last;
          }
          assert k in init;
        }
      }
    }
  }

  /** The mutable dictionary `counts`, with `order` listing its keys in the
      order they were added, holds exactly the entries `t`. */
  predicate Mirrors(t: seq<Entry>, order: seq<string>, counts: map<string, nat>)
  {
    && |order| == |t|
    && (forall j :: 0 <= j < |order| ==> order[j] == t[j].key && order[j] in counts && counts[order[j]] == t[j].count)
    && (forall k :: k in counts ==> k in order)
  }

  lemma SameKeysDistinct(t: seq<Entry>, u: seq<Entry>)
    requires DistinctKeys(t) && |u| == |t|
    requires forall j :: 0 <= j < |t| ==> u[j].key == t[j].key
    ensures DistinctKeys(u)
  {
  }

  /** On distinct keys, bumping a known key raises the count at its one
      position. */
  lemma BumpKnownAt(t: seq<Entry>, k: string, j: nat)
    requires DistinctKeys(t) && j < |t| && t[j].key == k
    ensures Bump(t, k) == t[j := Entry(k, t[j].count + 1)]
  {
    assert HasKey(t, k);
    assert IndexOfKey(t, k) == j;
  }

  lemma MirrorsRaise(t: seq<Entry>, order: seq<string>, counts: map<string, nat>, j: nat)
    requires DistinctKeys(t) && Mirrors(t, order, counts) && j < |t|
    ensures Mirrors(t[j := Entry(t[j].key, t[j].count + 1)], order, counts[order[j] := counts[order[j]] + 1])
  {
    var b, c := t[j := Entry(t[j].key, t[j].count + 1)], counts[order[j] := counts[order[j]] + 1];
    forall m | 0 <= m < |order| ensures order[m] == b[m].key && order[m] in c && c[order[m]] == b[m].count {
      if m != j {
        assert t[m].key != t[j].key;
      }
    }
  }

  /** `acc[k] = acc[k] + 1` on a key already in the dictionary does what
      `Bump` does on its entries. */
  lemma BumpMirrorsKnown(t: seq<Entry>, order: seq<string>, counts: map<string, nat>, k: string)
    requires DistinctKeys(t) && Mirrors(t, order, counts) && k in counts
    ensures DistinctKeys(Bump(t, k)) && Mirrors(Bump(t, k), order, counts[k := counts[k] + 1])
  {
    var j :| 0 <= j < |order| && order[j] == k;
    BumpKnownAt(t, k, j);
    SameKeysDistinct(t, t[j := Entry(k, t[j].count + 1)]);
    MirrorsRaise(t, order, counts, j);
  }

  /** `acc[k] = 0 + 1` on a key not yet in the dictionary adds it last, as
      `Bump` does. */
  lemma BumpMirrorsNew(t: seq<Entry>, order: seq<string>, counts: map<string, nat>, k: string)
    requires DistinctKeys(t) && Mirrors(t, order, counts) && k !in counts
    ensures DistinctKeys(Bump(t, k)) && Mirrors(Bump(t, k), order + [k], counts[k := 1])
  {
    assert !HasKey(t, k);
    BumpEffect(t, k);
    var b, o, c := Bump(t, k), order + [k], counts[k := 1];
    forall m | 0 <= m < |o| ensures o[m] == b[m].key && o[m] in c && c[o[m]] == b[m].count {
      if m < |order| {
        assert o[m] == order[m] && t[m].key != k;
      }
    }
  }

  /** `rows.reduce(...)` over a mutable dictionary: `counts`, with `order`
      keeping the order in which keys were first added. */
  method Reduce(keys: seq<string>) returns (order: seq<string>, counts: map<string, nat>)
    ensures Mirrors(TallyOf(keys), order, counts)
  {
    counts, order := map[], [];
    ghost var t: seq<Entry> := [];
    var i := 0;
    while i < |keys|
      invariant 0 <= i <= |keys|
      invariant t == TallyOf(keys[..i]) && DistinctKeys(t)
      invariant Mirrors(t, order, counts)
    {
      var k := keys[i];
      assert keys[..i + 1][..i] == keys[..i];
      if k in counts {
        BumpMirrorsKnown(t, order, counts, k);
        t := Bump(t, k);
        counts := counts[k := counts[k] + 1];
      } else {
        BumpMirrorsNew(t, order, counts, k);
        t := Bump(t, k);
        counts := counts[k := 1];
        order := order + [k];
      }
      i := i + 1;
    }
    assert keys[..|keys|] == keys;
  }

  /** `Object.entries(counts)`: the pairs in the order the keys were added. */
  method EntriesOf(order: seq<string>, counts: map<string, nat>) returns (entries: seq<Entry>)
    requires forall k :: k in order ==> k in counts
    ensures |entries| == |order|
    ensures forall m :: 0 <= m < |order| ==> entries[m] == Entry(order[m], counts[order[m]])
  {
    entries := [];
    var j := 0;
    while j < |order|
      invariant 0 <= j <= |order|
      invariant |entries| == j
      invariant forall m :: 0 <= m < j ==> entries[m] == Entry(order[m], counts[order[m]])
    {
      entries := entries + [Entry(order[j], counts[order[j]])];
      j := j + 1;
    }
  }

  /** `Object.entries(rows.reduce(...))`: the entries read out of the
      dictionary are the ones the reduce over the rows defines. */
  method CountByKey(keys: seq<string>) returns (entries: seq<Entry>)
    ensures entries == TallyOf(keys)
  {
    var order, counts := Reduce(keys);
    entries := EntriesOf(order, counts);
    ghost var t := TallyOf(keys);
    assert forall m :: 0 <= m < |t| ==> entries[m] == t[m];
  }

  /** Non-increasing by count. */
  predicate SortedByCountDesc(entries: seq<Entry>)
  {
    forall i, j :: 0 <= i < j < |entries| ==> entries[i].count >= entries[j].count
  }

  /** Places `e` before the first entry whose count does not exceed its own,
      so that among equal counts the earlier entry stays first. */
  function Insert(e: Entry, sorted: seq<Entry>): seq<Entry>
  {
    if sorted == [] || sorted[0].count <= e.count then [e] + sorted
    else [sorted[0]] + Insert(e, sorted[1..])
  }

  /** `entries.sort((a, b) => b.count - a.count)`, a stable sort. */
  function SortByCountDesc(entries: seq<Entry>): seq<Entry>
  {
    if entries == [] then [] else Insert(entries[0], SortByCountDesc(entries[1..]))
  }

  /** No entry counts more than `c`. */
  predicate AtMost(entries: seq<Entry>, c: nat)
  {
    forall i :: 0 <= i < |entries| ==> entries[i].count <= c
  }

  lemma {:induction false} InsertAtMost(e: Entry, sorted: seq<Entry>, c: nat)
    requires AtMost(sorted, c) && e.count <= c
    ensures AtMost(Insert(e, sorted), c)
  {
    if sorted != [] && sorted[0].count > e.count {
      InsertAtMost(e, sorted[1..], c);
      var r := Insert(e, sorted);
      assert r == [sorted[0]] + Insert(e, sorted[1..]);
    }
  }

  lemma SortedCons(x: Entry, s: seq<Entry>)
    requires SortedByCountDesc(s) && AtMost(s, x.count)
    ensures SortedByCountDesc([x] + s)
  {
    var r := [x] + s;
    forall i, j | 0 <= i < j < |r| ensures r[i].count >= r[j].count {
      if i > 0 {
        assert r[i] == s[i - 1] && r[j] == s[j - 1];
      } else {
        assert r[j] == s[j - 1];
      }
    }
  }

  lemma {:induction false} InsertSorted(e: Entry, sorted: seq<Entry>)
    requires SortedByCountDesc(sorted)
    ensures SortedByCountDesc(Insert(e, sorted))
  {
    if sorted != [] && sorted[0].count > e.count {
      var rest := sorted[1..];
      InsertSorted(e, rest);
      assert AtMost(rest, sorted[0].count) by {
        forall i | 0 <= i < |rest| ensures rest[i].count <= sorted[0].count {
          assert rest[i] == sorted[i + 1];
        }
      }
      InsertAtMost(e, rest, sorted[0].count);
      SortedCons(sorted[0], Insert(e, rest));
    } else {
      assert AtMost(sorted, e.count) by {
        forall i | 0 <= i < |sorted| ensures sorted[i].count <= e.count {
          assert sorted[0].count >= sorted[i].count;
        }
      }
      SortedCons(e, sorted);
    }
  }

  lemma {:induction false} InsertPermutes(e: Entry, sorted: seq<Entry>)
    ensures multiset(Insert(e, sorted)) == multiset(sorted) + multiset{e}
  {
    if sorted != [] && sorted[0].count > e.count {
      InsertPermutes(e, sorted[1..]);
      assert sorted == [sorted[0]] + sorted[1..];
    }
  }

  /** The sort returns the same entries, non-increasing by count. */
  lemma {:induction false} SortByCountDescCorrect(entries: seq<Entry>)
    ensures SortedByCountDesc(SortByCountDesc(entries))
    ensures multiset(SortByCountDesc(entries)) == multiset(entries)
  {
    if entries != [] {
      SortByCountDescCorrect(entries[1..]);
      InsertSorted(entries[0], SortByCountDesc(entries[1..]));
      InsertPermutes(entries[0], SortByCountDesc(entries[1..]));
      assert entries == [entries[0]] + entries[1..];
    }
  }

  /** The entries whose count is `c`, in their order. */
  function WithCount(entries: seq<Entry>, c: nat): seq<Entry>
  {
    if entries == [] then []
    else (if entries[0].count == c then [entries[0]] else []) + WithCount(entries[1..], c)
  }

  /** The sort is stable: for every count, the entries with that count keep
      their input order, as `Array.prototype.sort` guarantees. */
  lemma {:induction false} SortByCountDescStable(entries: seq<Entry>, c: nat)
    ensures WithCount(SortByCountDesc(entries), c) == WithCount(entries, c)
  {
    if entries != [] {
      SortByCountDescStable(entries[1..], c);
      InsertStable(entries[0], SortByCountDesc(entries[1..]), c);
    }
  }

  /** Inserting `e` puts it ahead of every entry of its own count, and leaves
      the entries of any other count as they were. */
  lemma {:induction false} InsertStable(e: Entry, sorted: seq<Entry>, c: nat)
    ensures WithCount(Insert(e, sorted), c)
         == (if e.count == c then [e] else []) + WithCount(sorted, c)
  {
    if sorted == [] || sorted[0].count <= e.count {
      assert ([e] + sorted)[1..] == sorted;
    } else {
      InsertStable(e, sorted[1..], c);
      assert ([sorted[0]] + Insert(e, sorted[1..]))[1..] == Insert(e, sorted[1..]);
      if sorted[0].count == c {
        assert e.count != c;
      }
    }
  }

  lemma {:induction false} InsertTotal(e: Entry, sorted: seq<Entry>)
    ensures Total(Insert(e, sorted)) == e.count + Total(sorted)
  {
    if sorted != [] && sorted[0].count > e.count {
      InsertTotal(e, sorted[1..]);
      assert Insert(e, sorted)[1..] == Insert(e, sorted[1..]);
    } else {
      assert ([e] + sorted)[1..] == sorted;
    }
  }

  /** Sorting does not change the total. */
  lemma {:induction false} SortKeepsTotal(entries: seq<Entry>)
    ensures Total(SortByCountDesc(entries)) == Total(entries)
  {
    if entries != [] {
      SortKeepsTotal(entries[1..]);
      InsertTotal(entries[0], SortByCountDesc(entries[1..]));
    }
  }
}
