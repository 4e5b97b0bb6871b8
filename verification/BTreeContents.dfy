/** The B+tree as a sorted association list: what lies in the leaves from left
    to right, and what an insertion at the end of a routed path does to it. */
module BTreeContents {
  import opened Lexicon
  import opened BTree

  // ----- sorted association lists -----

  predicate Sorted(e: Entries) {
    forall i, j :: 0 <= i < j < |e| ==> e[i].0 < e[j].0
  }

  function Lookup(e: Entries, k: int): Option<int> {
    if e == [] then None else if e[0].0 == k then Some(e[0].1) else Lookup(e[1..], k)
  }

  function SeqPut(e: Entries, k: int, v: int): Entries {
    if e == [] then [(k, v)]
    else if e[0].0 == k then [(k, v)] + e[1..]
    else if k < e[0].0 then [(k, v)] + e
    else [e[0]] + SeqPut(e[1..], k, v)
  }

  /** The live record ids with start <= key < stop, in key order. */
  function Select(e: Entries, start: int, stop: int): seq<int> {
    if e == [] then []
    else (if start <= e[0].0 < stop && e[0].1 >= 0 then [e[0].1] else []) + Select(e[1..], start, stop)
  }

  lemma {:induction false} PutMembers(e: Entries, k: int, v: int)
    ensures forall x :: x in SeqPut(e, k, v) ==> x.0 == k || x in e
    decreases |e|
  {
    if e != [] && e[0].0 < k {
      PutMembers(e[1..], k, v);
    }
  }

  lemma {:induction false} PutSorted(e: Entries, k: int, v: int)
    requires Sorted(e)
    ensures Sorted(SeqPut(e, k, v))
    decreases |e|
  {
    if e != [] && e[0].0 < k {
      var rest := SeqPut(e[1..], k, v);
      PutSorted(e[1..], k, v);
      PutMembers(e[1..], k, v);
      forall j | 0 <= j < |rest| ensures e[0].0 < rest[j].0 {
        assert rest[j] in rest;
        if rest[j] in e[1..] {
          var m :| 0 <= m < |e[1..]| && e[1..][m] == rest[j];
          assert e[m + 1] == e[1..][m];
        }
      }
    }
  }

  lemma {:induction false} PutLookup(e: Entries, k: int, v: int, q: int)
    requires Sorted(e)
    ensures Lookup(SeqPut(e, k, v), q) == if q == k then Some(v) else Lookup(e, q)
    decreases |e|
  {
    if e == [] {
      assert [(k, v)][1..] == [];
    } else if e[0].0 < k {
      PutLookup(e[1..], k, v, q);
      assert SeqPut(e, k, v)[1..] == SeqPut(e[1..], k, v);
    } else {
      assert ([(k, v)] + e)[1..] == e && ([(k, v)] + e[1..])[1..] == e[1..];
    }
  }

  /** Putting keeps the list sorted and is a map update. */
  lemma PutIsUpdate(e: Entries, k: int, v: int, q: int)
    requires Sorted(e)
    ensures Sorted(SeqPut(e, k, v))
    ensures Lookup(SeqPut(e, k, v), q) == if q == k then Some(v) else Lookup(e, q)
  {
    PutSorted(e, k, v);
    PutLookup(e, k, v, q);
  }

  lemma {:induction false} LookupSkips(e: Entries, k: int)
    requires forall i :: 0 <= i < |e| ==> e[i].0 != k
    ensures Lookup(e, k) == None
    decreases |e|
  {
    if e != [] {
      LookupSkips(e[1..], k);
    }
  }

  lemma {:induction false} LookupAppend(a: Entries, b: Entries, k: int)
    ensures Lookup(a + b, k) == if Lookup(a, k).Some? then Lookup(a, k) else Lookup(b, k)
    decreases |a|
  {
    if a == [] {
      assert a + b == b;
    } else {
      assert (a + b)[1..] == a[1..] + b;
      LookupAppend(a[1..], b, k);
    }
  }

  lemma {:induction false} PutAfter(a: Entries, e: Entries, k: int, v: int)
    requires forall i :: 0 <= i < |a| ==> a[i].0 < k
    ensures SeqPut(a + e, k, v) == a + SeqPut(e, k, v)
    decreases |a|
  {
    if a == [] {
      assert a + e == e;
    } else {
      assert (a + e)[1..] == a[1..] + e;
      PutAfter(a[1..], e, k, v);
      assert a == [a[0]] + a[1..];
    }
  }

  lemma {:induction false} PutBefore(b: Entries, c: Entries, k: int, v: int)
    requires forall i :: 0 <= i < |c| ==> k < c[i].0
    ensures SeqPut(b + c, k, v) == SeqPut(b, k, v) + c
    decreases |b|
  {
    if b == [] {
      assert b + c == c;
      assert c != [] ==> c[0].0 > k;
    } else {
      assert (b + c)[1..] == b[1..] + c;
      if b[0].0 < k {
        PutBefore(b[1..], c, k, v);
      }
    }
  }

  /** Only the middle part of a sorted list is touched when k belongs there. */
  lemma PutAround(a: Entries, b: Entries, c: Entries, k: int, v: int)
    requires forall i :: 0 <= i < |a| ==> a[i].0 < k
    requires forall i :: 0 <= i < |c| ==> k < c[i].0
    ensures SeqPut(a + b + c, k, v) == a + SeqPut(b, k, v) + c
  {
    hide SeqPut;
    assert a + b + c == a + (b + c);
    PutAfter(a, b + c, k, v);
    PutBefore(b, c, k, v);
  }

  lemma {:induction false} SelectAppend(a: Entries, b: Entries, start: int, stop: int)
    ensures Select(a + b, start, stop) == Select(a, start, stop) + Select(b, start, stop)
    decreases |a|
  {
    if a == [] {
      assert a + b == b;
    } else {
      assert (a + b)[1..] == a[1..] + b;
      SelectAppend(a[1..], b, start, stop);
    }
  }

  lemma {:induction false} SelectNone(e: Entries, start: int, stop: int)
    requires forall i :: 0 <= i < |e| ==> e[i].0 < start || e[i].0 >= stop
    ensures Select(e, start, stop) == []
    decreases |e|
  {
    if e != [] {
      SelectNone(e[1..], start, stop);
    }
  }

  /** What a scan returns, by position: exactly the live ids of the range. */
  lemma {:induction false} SelectExact(e: Entries, start: int, stop: int, rid: int)
    ensures rid in Select(e, start, stop) <==> exists x :: x in e && start <= x.0 < stop && x.1 == rid && rid >= 0
    decreases |e|
  {
    if e != [] {
      SelectExact(e[1..], start, stop, rid);
      assert forall x :: x in e <==> x == e[0] || x in e[1..];
    }
  }

  // ----- the contents of a tree -----

  ghost predicate LeavesOk(ls: seq<Tree>) {
    forall l :: l in ls ==> LeafOk(l)
  }

  ghost function EntriesOf(ls: seq<Tree>): Entries
    requires LeavesOk(ls)
  {
    if ls == [] then []
    else
      assert ls[0] in ls;
      Zip(ls[0].keys, ls[0].rids) + EntriesOf(ls[1..])
  }

  lemma {:induction false} EntriesAppend(a: seq<Tree>, b: seq<Tree>)
    requires LeavesOk(a) && LeavesOk(b)
    ensures LeavesOk(a + b) && EntriesOf(a + b) == EntriesOf(a) + EntriesOf(b)
    decreases |a|
  {
    if a == [] {
      assert a + b == b;
    } else {
      assert (a + b)[1..] == a[1..] + b;
      EntriesAppend(a[1..], b);
    }
  }

  lemma EntriesOne(l: Tree)
    requires LeafOk(l)
    ensures LeavesOk([l]) && EntriesOf([l]) == Zip(l.keys, l.rids)
  {
    assert [l][1..] == [];
  }

  lemma {:induction false} EntriesKeys(ls: seq<Tree>, i: nat)
    requires LeavesOk(ls) && i < |EntriesOf(ls)|
    ensures EntriesOf(ls)[i].0 in KeySet(ls)
    decreases |ls|
  {
    if ls != [] {
      var n := |ls[0].keys|;
      KeySetAppend([ls[0]], ls[1..]);
      assert ls == [ls[0]] + ls[1..];
      if i < n {
        assert ls[0] in ls && ls[0].keys[i] in ls[0].keys;
      } else {
        EntriesKeys(ls[1..], i - n);
      }
    }
  }

  lemma {:induction false} GoodLeaves(t: Tree)
    requires Good(t)
    ensures LeavesOk(Leaves(t))
    decreases t, 1
  {
    if t.Inner? {
      GoodLeavesAll(t.kids);
    }
  }

  lemma {:induction false} GoodLeavesAll(ts: seq<Tree>)
    requires forall i :: 0 <= i < |ts| ==> Good(ts[i])
    ensures LeavesOk(LeavesAll(ts))
    decreases ts, 0
  {
    if ts != [] {
      GoodLeaves(ts[0]);
      GoodLeavesAll(ts[1..]);
    }
  }

  /** Two sorted lists of leaves, one below x and the other from x on. */
  lemma SortedJoin(a: seq<Tree>, b: seq<Tree>, x: int)
    requires LeavesOk(a) && LeavesOk(b) && Sorted(EntriesOf(a)) && Sorted(EntriesOf(b))
    requires Below(KeySet(a), x) && AtLeast(KeySet(b), x)
    ensures LeavesOk(a + b) && Sorted(EntriesOf(a + b))
  {
    hide KeySet, EntriesOf, LeafOk;
    EntriesAppend(a, b);
    var ea, eb := EntriesOf(a), EntriesOf(b);
    var e: Entries := ea + eb;
    forall i, j | 0 <= i < j < |e| ensures e[i].0 < e[j].0 {
      if i < |ea| <= j {
        EntriesKeys(a, i);
        EntriesKeys(b, j - |ea|);
      } else if j < |ea| {
        assert ea[i].0 < ea[j].0;
      } else {
        assert eb[i - |ea|].0 < eb[j - |ea|].0;
      }
    }
  }

  /** A good tree's leaves hold strictly increasing keys. */
  lemma {:induction false} GoodSorted(t: Tree)
    requires Good(t)
    ensures LeavesOk(Leaves(t)) && Sorted(EntriesOf(Leaves(t)))
    decreases t, 1
  {
    GoodLeaves(t);
    if t.Leaf? {
      EntriesOne(t);
    } else {
      KidsSorted(t, |t.kids|);
      assert t.kids[..|t.kids|] == t.kids;
    }
  }

  lemma {:induction false} KidsSorted(t: Tree, n: nat)
    requires t.Inner? && Good(t) && n <= |t.kids|
    ensures LeavesOk(LeavesAll(t.kids[..n])) && Sorted(EntriesOf(LeavesAll(t.kids[..n])))
    decreases t, 0, n
  {
    hide KeySet, Leaves, LeafOk;
    var ks := t.kids[..n];
    GoodLeavesAll(ks);
    if n > 0 {
      var m := n - 1;
      assert ks == t.kids[..m] + [t.kids[m]];
      LeavesAppend(t.kids[..m], [t.kids[m]]);
      LeavesOne(t.kids[m]);
      KidsSorted(t, m);
      GoodSorted(t.kids[m]);
      if m > 0 {
        PrefixBelow(t, m);
        SortedJoin(LeavesAll(t.kids[..m]), Leaves(t.kids[m]), t.keys[m - 1]);
      } else {
        assert t.kids[..0] == [];
        assert LeavesAll(ks) == Leaves(t.kids[m]);
      }
    }
  }

  lemma PrefixBelow(t: Tree, m: nat)
    requires t.Inner? && Good(t) && 1 <= m < |t.kids|
    ensures Below(KeySet(LeavesAll(t.kids[..m])), t.keys[m - 1])
  {
    assert Separated(t.keys, t.kids);
    hide KeySet, Leaves, LeavesAll, Good;
    forall k | k in KeySet(LeavesAll(t.kids[..m])) ensures k < t.keys[m - 1] {
      KeyInSome(t.kids[..m], k);
      var j :| 0 <= j < m && k in KeySet(Leaves(t.kids[..m][j]));
      assert t.kids[..m][j] == t.kids[j];
      assert Below(KeySet(Leaves(t.kids[j])), t.keys[j]);
    }
  }

  // ----- routed paths -----

  lemma {:induction false} RoutedBounds(fs: seq<Frame>, s: Tree, key: int)
    requires FramesOk(fs) && Good(Plug(fs, s)) && Routed(fs, key)
    ensures Below(KeySet(LeftOf(fs)), key) && AtLeast(KeySet(RightOf(fs)), key + 1)
    decreases |fs|
  {
    hide Good, Plug, Leaves, LeavesAll, Routes;
    if fs != [] {
      var f := fs[|fs| - 1];
      var up := fs[..|fs| - 1];
      PlugLast(fs, s);
      PlugGood(up, Fill(f, s));
      FrameBounds(f, s, key);
      RoutedBounds(up, Fill(f, s), key);
      KeySetAppend(LeftOf(up), LeavesAll(LeftKids(f)));
      KeySetAppend(LeavesAll(RightKids(f)), RightOf(up));
    }
  }

  lemma FrameBounds(f: Frame, s: Tree, key: int)
    requires FrameOk(f) && Good(Fill(f, s)) && Routes(f, key)
    ensures Below(KeySet(LeavesAll(LeftKids(f))), key) && AtLeast(KeySet(LeavesAll(RightKids(f))), key + 1)
  {
    hide KeySet, Leaves, LeavesAll, Good, Height, Fill, LeftKids, RightKids, Routes;
    forall k | k in KeySet(LeavesAll(LeftKids(f))) ensures k < key {
      KeyInSome(LeftKids(f), k);
      var j :| 0 <= j < |LeftKids(f)| && k in KeySet(Leaves(LeftKids(f)[j]));
      LeftBound(f, s, key, j);
    }
    forall k | k in KeySet(LeavesAll(RightKids(f))) ensures key + 1 <= k {
      KeyInSome(RightKids(f), k);
      var j :| 0 <= j < |RightKids(f)| && k in KeySet(Leaves(RightKids(f)[j]));
      RightBound(f, s, key, j);
    }
  }

  lemma LeftBound(f: Frame, s: Tree, key: int, j: nat)
    requires FrameOk(f) && Good(Fill(f, s)) && Routes(f, key) && j < |LeftKids(f)|
    ensures Below(KeySet(Leaves(LeftKids(f)[j])), key)
  {
    hide KeySet, Leaves, Good, Height, Fill, AtLeast;
    FillFacts(f, s);
    assert f.keys[j] <= f.keys[f.i - 1];
  }

  lemma RightBound(f: Frame, s: Tree, key: int, j: nat)
    requires FrameOk(f) && Good(Fill(f, s)) && Routes(f, key) && j < |RightKids(f)|
    ensures AtLeast(KeySet(Leaves(RightKids(f)[j])), key + 1)
  {
    hide KeySet, Leaves, Good, Height, Fill, Below;
    FillFacts(f, s);
    assert RightKids(f)[j] == f.kids[f.i + 1 + j] && key < f.keys[f.i] <= f.keys[f.i + j];
  }

  ghost function Contents(t: Tree): Entries
    requires Good(t)
  {
    GoodLeaves(t);
    EntriesOf(Leaves(t))
  }

  /** The tree's contents around the end of a routed path: smaller keys to the
      left, greater ones to the right. */
  lemma ContentsAround(fs: seq<Frame>, s: Tree, key: int) returns (a: Entries, c: Entries)
    requires FramesOk(fs) && Good(Plug(fs, s)) && Routed(fs, key) && s.Leaf?
    ensures LeafOk(s) && Contents(Plug(fs, s)) == a + Zip(s.keys, s.rids) + c
    ensures LeavesOk(LeftOf(fs)) && LeavesOk(RightOf(fs)) && a == EntriesOf(LeftOf(fs)) && c == EntriesOf(RightOf(fs))
    ensures forall i :: 0 <= i < |a| ==> a[i].0 < key
    ensures forall i :: 0 <= i < |c| ==> key < c[i].0
  {
    hide Good, Plug, EntriesOf, KeySet;
    PlugGood(fs, s);
    LeafIsOk(s);
    PlugLeaves(fs, s);
    GoodLeaves(Plug(fs, s));
    var l, r := LeftOf(fs), RightOf(fs);
    assert forall x :: x in l + Leaves(s) + r <==> x in l || x in Leaves(s) || x in r;
    EntriesAppend(l, Leaves(s));
    EntriesAppend(l + Leaves(s), r);
    EntriesOne(s);
    RoutedBounds(fs, s, key);
    a, c := EntriesOf(l), EntriesOf(r);
    forall i | 0 <= i < |a| ensures a[i].0 < key {
      EntriesKeys(l, i);
    }
    forall i | 0 <= i < |c| ensures key < c[i].0 {
      EntriesKeys(r, i);
    }
  }

  lemma LeafIsOk(s: Tree)
    requires Good(s) && s.Leaf?
    ensures LeafOk(s)
  {
  }

  // ----- leaves -----

  /** Leading keys smaller than k: where k is inserted. */
  function Rank(keys: seq<int>, k: int): (r: nat)
    ensures r <= |keys|
  {
    if keys != [] && k > keys[0] then 1 + Rank(keys[1..], k) else 0
  }

  lemma {:induction false} RankAt(keys: seq<int>, k: int)
    requires forall a, b :: 0 <= a < b < |keys| ==> keys[a] < keys[b]
    ensures forall i :: 0 <= i < Rank(keys, k) ==> keys[i] < k
    ensures forall i :: Rank(keys, k) <= i < |keys| ==> k <= keys[i]
    decreases |keys|
  {
    if keys != [] && k > keys[0] {
      RankAt(keys[1..], k);
      forall i | 0 <= i < |keys| ensures i < Rank(keys, k) ==> keys[i] < k ensures i >= Rank(keys, k) ==> k <= keys[i] {
        if i > 0 {
          assert keys[i] == keys[1..][i - 1];
        }
      }
    }
  }

  /** The keys and record ids of a leaf after an insertion. */
  function LeafKeys(keys: seq<int>, k: int): seq<int> {
    if k in keys then keys else keys[..Rank(keys, k)] + [k] + keys[Rank(keys, k)..]
  }

  function LeafRids(keys: seq<int>, rids: seq<int>, k: int, v: int): seq<int>
    requires |keys| == |rids|
  {
    var r := Rank(keys, k);
    if k in keys then (if r < |rids| then rids[r := v] else rids) else rids[..r] + [v] + rids[r..]
  }

  predicate Increasing(keys: seq<int>) {
    forall a, b :: 0 <= a < b < |keys| ==> keys[a] < keys[b]
  }

  lemma LeafPut(keys: seq<int>, rids: seq<int>, k: int, v: int)
    requires |keys| == |rids| && Increasing(keys)
    ensures |LeafKeys(keys, k)| == |LeafRids(keys, rids, k, v)| == |keys| + (if k in keys then 0 else 1)
    ensures Increasing(LeafKeys(keys, k))
    ensures forall x :: x in LeafKeys(keys, k) <==> x in keys || x == k
    ensures Zip(LeafKeys(keys, k), LeafRids(keys, rids, k, v)) == SeqPut(Zip(keys, rids), k, v)
  {
    if k in keys {
      LeafOverwrites(keys, rids, k, v);
    } else {
      LeafInserts(keys, rids, k, v);
    }
  }

  lemma {:induction false} RankFinds(keys: seq<int>, k: int)
    requires Increasing(keys) && k in keys
    ensures Rank(keys, k) < |keys| && keys[Rank(keys, k)] == k
    decreases |keys|
  {
    if k != keys[0] {
      var i :| 0 < i < |keys| && keys[i] == k;
      assert keys[0] < keys[i];
      assert keys[1..][i - 1] == k;
      RankFinds(keys[1..], k);
    }
  }

  lemma LeafOverwrites(keys: seq<int>, rids: seq<int>, k: int, v: int)
    requires |keys| == |rids| && Increasing(keys) && k in keys
    ensures Rank(keys, k) < |keys| && keys[Rank(keys, k)] == k
    ensures Zip(keys, LeafRids(keys, rids, k, v)) == SeqPut(Zip(keys, rids), k, v)
  {
    RankAt(keys, k);
    var r := Rank(keys, k);
    var e := Zip(keys, rids);
    RankFinds(keys, k);
    PutExisting(e, k, v, r);
    assert Zip(keys, rids[r := v]) == e[..r] + [(k, v)] + e[r + 1..];
  }

  lemma LeafInserts(keys: seq<int>, rids: seq<int>, k: int, v: int)
    requires |keys| == |rids| && Increasing(keys) && k !in keys
    ensures |LeafKeys(keys, k)| == |LeafRids(keys, rids, k, v)| == |keys| + 1
    ensures Increasing(LeafKeys(keys, k))
    ensures forall x :: x in LeafKeys(keys, k) <==> x in keys || x == k
    ensures Zip(LeafKeys(keys, k), LeafRids(keys, rids, k, v)) == SeqPut(Zip(keys, rids), k, v)
  {
    RankAt(keys, k);
    var r := Rank(keys, k);
    hide Rank;
    InsertIncreasing(keys, k, r);
    var e := Zip(keys, rids);
    PutMissing(e, k, v, r);
    ZipInserts(keys, rids, k, v, r);
  }

  lemma InsertIncreasing(keys: seq<int>, k: int, r: nat)
    requires r <= |keys| && Increasing(keys) && k !in keys
    requires (forall i :: 0 <= i < r ==> keys[i] < k) && (forall i :: r <= i < |keys| ==> k <= keys[i])
    ensures Increasing(keys[..r] + [k] + keys[r..])
    ensures forall x :: x in keys[..r] + [k] + keys[r..] <==> x in keys || x == k
  {
    assert keys == keys[..r] + keys[r..];
  }

  lemma ZipInserts(keys: seq<int>, rids: seq<int>, k: int, v: int, r: nat)
    requires |keys| == |rids| && r <= |keys|
    ensures Zip(keys[..r] + [k] + keys[r..], rids[..r] + [v] + rids[r..])
            == Zip(keys, rids)[..r] + [(k, v)] + Zip(keys, rids)[r..]
  {
  }

  lemma {:induction false} PutExisting(e: Entries, k: int, v: int, r: nat)
    requires r < |e| && e[r].0 == k && forall i :: 0 <= i < r ==> e[i].0 < k
    ensures SeqPut(e, k, v) == e[..r] + [(k, v)] + e[r + 1..]
    decreases r
  {
    if r > 0 {
      PutExisting(e[1..], k, v, r - 1);
      assert e[..r] == [e[0]] + e[1..][..r - 1] && e[1..][r..] == e[r + 1..];
    }
  }

  lemma {:induction false} PutMissing(e: Entries, k: int, v: int, r: nat)
    requires r <= |e| && (forall i :: 0 <= i < r ==> e[i].0 < k) && (forall i :: r <= i < |e| ==> k < e[i].0)
    ensures SeqPut(e, k, v) == e[..r] + [(k, v)] + e[r..]
    decreases r
  {
    if r > 0 {
      PutMissing(e[1..], k, v, r - 1);
      assert e[..r] == [e[0]] + e[1..][..r - 1] && e[1..][r - 1..] == e[r..];
    } else if e != [] {
      assert k < e[0].0;
    }
  }
}
