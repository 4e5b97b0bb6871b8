/** The single steps of a B+tree update as effects on the grid: what is stored
    before and after each record is written. */
module BTreeSteps {
  import opened Lexicon
  import opened BTree
  import opened BTreeContents
  import opened BTreeStore

  /** The leaf chain: each leaf names its right neighbour, the last one none. */
  predicate Chained(ls: seq<Tree>)
    requires forall l :: l in ls ==> l.Leaf?
  {
    forall i :: 0 <= i < |ls| ==> Link(ls, i)
  }

  predicate Link(ls: seq<Tree>, i: nat)
    requires i < |ls| && ls[i].Leaf?
  {
    ls[i].next == if i + 1 < |ls| then ls[i + 1].id else -1
  }

  predicate Bounded(ids: set<int>, next: int) {
    forall id :: id in ids ==> 0 <= id < next
  }

  /** The grid holds a good tree with distinct ids below next and a whole chain. */
  ghost predicate Held(g: Grid, t: Tree, next: int) {
    Good(t) && Apart(t) && Stores(g, t) && Bounded(Ids(t), next) && Chained(Leaves(t))
  }

  lemma ChainAt(ls: seq<Tree>, i: nat)
    requires (forall l :: l in ls ==> l.Leaf?) && Chained(ls) && i < |ls|
    ensures Link(ls, i)
  {
  }

  lemma WriteReads(g: Grid, n: Node)
    requires |n.children| == |n.keys| || |n.children| == |n.keys| + 1
    ensures ReadNode(g[n.id := Encode(n)], n.id) == Some(Parsed(n))
    ensures forall id :: id != n.id ==> ReadNode(g[n.id := Encode(n)], id) == ReadNode(g, id)
  {
    hide Encode, Parse;
    ParseEncode(n);
  }

  // ----- one leaf replaced, one leaf split -----

  lemma ChainReplaced(l: seq<Tree>, s: Tree, s': Tree, r: seq<Tree>)
    requires forall x :: x in l + [s] + r ==> x.Leaf?
    requires s'.Leaf? && s'.id == s.id && s'.next == s.next && Chained(l + [s] + r)
    ensures forall x :: x in l + [s'] + r ==> x.Leaf?
    ensures Chained(l + [s'] + r)
  {
    var a, b := l + [s] + r, l + [s'] + r;
    assert s in a;
    forall x | x in b ensures x.Leaf? {
      assert x == s' || x in a;
    }
    assert forall i :: 0 <= i < |a| ==> b[i] == if i == |l| then s' else a[i];
    assert a[|l|] == s;
    forall i | 0 <= i < |b| ensures Link(b, i) {
      ChainAt(a, i);
    }
  }

  lemma ChainSplit(l: seq<Tree>, s: Tree, p: Tree, q: Tree, r: seq<Tree>)
    requires forall x :: x in l + [s] + r ==> x.Leaf?
    requires p.Leaf? && q.Leaf? && p.id == s.id && p.next == q.id && q.next == s.next && Chained(l + [s] + r)
    ensures forall x :: x in l + [p, q] + r ==> x.Leaf?
    ensures Chained(l + [p, q] + r)
  {
    var a, b := l + [s] + r, l + [p, q] + r;
    assert s in a;
    forall x | x in b ensures x.Leaf? {
      assert x == p || x == q || x in a;
    }
    assert forall i :: 0 <= i < |b| ==>
      b[i] == if i < |l| then a[i] else if i == |l| then p else if i == |l| + 1 then q else a[i - 1];
    assert a[|l|] == s;
    forall i | 0 <= i < |b| ensures Link(b, i) {
      if i < |l| {
        ChainAt(a, i);
      } else if i > |l| {
        ChainAt(a, i - 1);
      }
    }
  }

  ghost predicate SameLeaf(s: Tree, s': Tree, key: int) {
    && s.Leaf? && s'.Leaf? && s'.id == s.id && s'.next == s.next && LeafOk(s')
    && (forall k :: k in s'.keys ==> k in s.keys || k == key)
  }

  /** Rewriting the leaf at the end of a routed path updates the contents there. */
  lemma LeafRewritten(g: Grid, fs: seq<Frame>, s: Tree, s': Tree, key: int, v: int, next: int)
    requires FramesOk(fs) && Held(g, Plug(fs, s), next) && Routed(fs, key) && SameLeaf(s, s', key)
    requires |s.keys| == |s.rids| && Zip(s'.keys, s'.rids) == SeqPut(Zip(s.keys, s.rids), key, v)
    ensures var g' := g[s.id := Encode(NodeOf(s'))];
            var t' := Plug(fs, s');
            Held(g', t', next) && t'.id == Plug(fs, s).id && Contents(t') == SeqPut(Contents(Plug(fs, s)), key, v)
  {
    hide Good, Stores, Apart, Ids, Contents, Encode, EntriesOf, SeqPut, KeySet, Plug, Chained;
    var t, t' := Plug(fs, s), Plug(fs, s');
    LeafReplaces(fs, s, s', key);
    PlugReplaces(fs, s, s', key);
    LeafRestored(g, fs, s, s');
    PlugIds(fs, s);
    PlugIds(fs, s');
    LeafIds(s);
    LeafIds(s');
    PlugLeaves(fs, s);
    PlugLeaves(fs, s');
    ChainReplaced(LeftOf(fs), s, s', RightOf(fs));
    var a, c := ContentsAround(fs, s, key);
    var a', c' := ContentsAround(fs, s', key);
    PutAround(a, Zip(s.keys, s.rids), c, key, v);
    PlugRoot(fs, s, s');
  }

  lemma {:induction false} PlugRoot(fs: seq<Frame>, s: Tree, s': Tree)
    requires FramesOk(fs) && s'.id == s.id
    ensures Plug(fs, s').id == Plug(fs, s).id
    decreases |fs|
  {
    if fs != [] {
      PlugRoot(fs[..|fs| - 1], Fill(fs[|fs| - 1], s), Fill(fs[|fs| - 1], s'));
    }
  }

  lemma LeafIds(s: Tree)
    requires s.Leaf?
    ensures Ids(s) == {s.id} && Apart(s) && Leaves(s) == [s]
  {
  }

  lemma LeafReplaces(fs: seq<Frame>, s: Tree, s': Tree, key: int)
    requires FramesOk(fs) && Good(Plug(fs, s)) && SameLeaf(s, s', key)
    ensures Replaces(s, s', key)
  {
    PlugGood(fs, s);
    forall k | k in KeySet([s']) ensures k in KeySet([s]) + {key} {
      assert k in s'.keys;
      assert s in [s];
    }
  }

  lemma LeafRestored(g: Grid, fs: seq<Frame>, s: Tree, s': Tree)
    requires FramesOk(fs) && s.Leaf? && s'.Leaf? && s'.id == s.id && |s'.keys| == |s'.rids|
    requires Apart(Plug(fs, s)) && Stores(g, Plug(fs, s))
    ensures Stores(g[s.id := Encode(NodeOf(s'))], Plug(fs, s'))
  {
    hide Encode, PathStored;
    var g' := g[s.id := Encode(NodeOf(s'))];
    PlugStored(g, fs, s);
    PlugIds(fs, s);
    WriteReads(g, NodeOf(s'));
    PathFrame(g, g', fs, s.id);
    PlugStored(g', fs, s');
  }

  // ----- walking down -----

  function FrameNode(f: Frame): Node {
    Node(f.id, false, f.keys, KidIds(f.kids), -1)
  }

  ghost predicate AncestorsOf(ancestors: seq<Node>, fs: seq<Frame>) {
    |ancestors| == |fs| && forall i :: 0 <= i < |fs| ==> ancestors[i] == FrameNode(fs[i])
  }

  lemma AtRoot(s: Tree, key: int)
    ensures Plug([], s) == s && Routed([], key) && AncestorsOf([], []) && Aligned([], s.id)
  {
  }

  lemma RootStored(g: Grid, t: Tree, next: int)
    requires Held(g, t, next)
    ensures ReadNode(g, t.id) == Some(NodeOf(t))
  {
  }

  lemma InnerFacts(g: Grid, t: Tree)
    requires t.Inner? && Good(t) && Stores(g, t)
    ensures |t.keys| == |t.kids| && 2 <= |t.kids|
            && (forall a, b :: 0 <= a < b < |t.kids| - 1 ==> t.keys[a] < t.keys[b])
    ensures forall i :: 0 <= i < |t.kids| ==>
              Good(t.kids[i]) && Stores(g, t.kids[i]) && ReadNode(g, t.kids[i].id) == Some(NodeOf(t.kids[i]))
  {
  }

  lemma PlugDeeper(fs: seq<Frame>, f: Frame)
    requires FramesOk(fs) && FrameOk(f)
    ensures FramesOk(fs + [f]) && Plug(fs + [f], f.kids[f.i]) == Plug(fs, Inner(f.id, f.keys, f.kids))
  {
    assert (fs + [f])[..|fs|] == fs;
    assert f.kids[f.i := f.kids[f.i]] == f.kids;
  }

  /** A step down to child i keeps the path, its routing and the nodes passed in line. */
  lemma StepsDown(g: Grid, fs: seq<Frame>, s: Tree, ancestors: seq<Node>, i: nat, key: int)
    requires FramesOk(fs) && Routed(fs, key) && AncestorsOf(ancestors, fs) && Aligned(fs, s.id)
    requires s.Inner? && Good(s) && Stores(g, s) && |s.keys| == |s.kids| && i < |s.kids|
    requires (i < |s.kids| - 1 ==> key < s.keys[i]) && (i > 0 ==> s.keys[i - 1] <= key)
    ensures var deeper := fs + [Frame(s.id, s.keys, s.kids, i)];
            && FramesOk(deeper) && Plug(deeper, s.kids[i]) == Plug(fs, s) && Routed(deeper, key)
            && AncestorsOf(ancestors + [NodeOf(s)], deeper) && Aligned(deeper, s.kids[i].id)
    ensures Good(s.kids[i]) && Stores(g, s.kids[i]) && ReadNode(g, s.kids[i].id) == Some(NodeOf(s.kids[i]))
  {
    hide Good, Stores, Plug, Aligned, ReadNode;
    InnerFacts(g, s);
    var f := Frame(s.id, s.keys, s.kids, i);
    PlugDeeper(fs, f);
    AlignedDeeper(fs, f);
  }

  /** The first separator above key picks the child; past the last one, the
      index is clamped to the last child. */
  method ChildIndex(keys: seq<int>, n: nat, key: int) returns (idx: nat)
    requires |keys| == n && n >= 1
    ensures idx < n && (idx < n - 1 ==> key < keys[idx]) && (idx > 0 ==> keys[idx - 1] <= key)
  {
    idx := 0;
    var i := 0;
    while i < |keys|
      invariant 0 <= i <= |keys| && idx == i
      invariant forall j :: 0 <= j < i ==> keys[j] <= key
    {
      if key < keys[i] {
        break;
      }
      idx := i + 1;
      i := i + 1;
    }
    if idx >= n {
      idx := n - 1;
    }
  }

  method FindKey(keys: seq<int>, rids: seq<int>, key: int) returns (i: int)
    requires |keys| == |rids|
    ensures -1 <= i < |keys| && (i >= 0 ==> keys[i] == key) && (i < 0 ==> key !in keys)
    ensures Lookup(Zip(keys, rids), key) == if i < 0 then None else Some(rids[i])
  {
    var e := Zip(keys, rids);
    var j := 0;
    while j < |keys|
      invariant 0 <= j <= |keys| && key !in keys[..j]
      invariant Lookup(e, key) == Lookup(e[j..], key)
    {
      assert e[j..][1..] == e[j + 1..];
      if keys[j] == key {
        return j;
      }
      j := j + 1;
    }
    i := -1;
  }

  lemma LookupAround(a: Entries, b: Entries, c: Entries, key: int)
    requires forall i :: 0 <= i < |a| ==> a[i].0 < key
    requires forall i :: 0 <= i < |c| ==> key < c[i].0
    ensures Lookup(a + b + c, key) == Lookup(b, key)
  {
    hide Lookup;
    LookupAppend(a + b, c, key);
    LookupAppend(a, b, key);
    LookupSkips(a, key);
    LookupSkips(c, key);
  }

  lemma Overwritten(s: Tree, key: int, v: int, i: nat)
    requires LeafOk(s) && i < |s.keys| && s.keys[i] == key
    ensures var s' := Leaf(s.id, s.keys, s.rids[i := v], s.next);
            SameLeaf(s, s', key) && Zip(s'.keys, s'.rids) == SeqPut(Zip(s.keys, s.rids), key, v)
  {
    LeafOverwrites(s.keys, s.rids, key, v);
    KeyOnce(s.keys, i, Rank(s.keys, key));
  }

  lemma KeyOnce(keys: seq<int>, i: nat, j: nat)
    requires Increasing(keys) && i < |keys| && j < |keys| && keys[i] == keys[j]
    ensures i == j
  {
  }

  lemma SmallId(g: Grid, fs: seq<Frame>, s: Tree, next: int)
    requires FramesOk(fs) && Held(g, Plug(fs, s), next)
    ensures 0 <= s.id < next
  {
    PlugIds(fs, s);
    assert s.id in Ids(s);
  }

  /** Every frame's child at its hole is the node the path goes on to. */
  ghost predicate Aligned(fs: seq<Frame>, hole: int)
    requires FramesOk(fs)
  {
    if fs == [] then true
    else
      var f := fs[|fs| - 1];
      FrameOk(f) && f.kids[f.i].id == hole && Aligned(fs[..|fs| - 1], f.id)
  }

  lemma AlignedDeeper(fs: seq<Frame>, f: Frame)
    requires FramesOk(fs) && FrameOk(f) && Aligned(fs, f.id)
    ensures FramesOk(fs + [f]) && Aligned(fs + [f], f.kids[f.i].id)
  {
    assert (fs + [f])[..|fs|] == fs;
  }

  lemma LeafShape(s: Tree)
    requires LeafOk(s)
    ensures s.Leaf? && |s.keys| == |s.rids| && |s.keys| <= MAX_KEYS
  {
  }

  lemma LeafAtEnd(g: Grid, fs: seq<Frame>, s: Tree, next: int)
    requires FramesOk(fs) && Held(g, Plug(fs, s), next) && s.Leaf?
    ensures LeafOk(s) && |s.keys| == |s.rids| <= MAX_KEYS && Increasing(s.keys)
  {
    hide Stores, Apart, Ids, Plug;
    PlugGood(fs, s);
  }

  lemma OverwrittenAt(s: Tree, key: int, v: int, i: nat)
    requires LeafOk(s) && i < |s.keys| && s.keys[i] == key
    ensures LeafKeys(s.keys, key) == s.keys && LeafRids(s.keys, s.rids, key, v) == s.rids[i := v]
    ensures SameLeaf(s, Leaf(s.id, s.keys, s.rids[i := v], s.next), key)
  {
    LeafOverwrites(s.keys, s.rids, key, v);
    KeyOnce(s.keys, i, Rank(s.keys, key));
  }

  method InsertionPoint(keys: seq<int>, key: int) returns (at: nat)
    ensures at == Rank(keys, key)
  {
    at := 0;
    var i := 0;
    while i < |keys|
      invariant 0 <= i <= |keys| && at == i
      invariant Rank(keys, key) == i + Rank(keys[i..], key)
    {
      assert keys[i..][1..] == keys[i + 1..];
      if key > keys[i] {
        at := i + 1;
      } else {
        break;
      }
      i := i + 1;
    }
  }

  lemma GrownLeaf(s: Tree, s': Tree, key: int)
    requires LeafOk(s) && s'.Leaf? && s'.id == s.id && s'.next == s.next && |s'.keys| == |s'.rids|
             && 1 <= |s'.keys| <= MAX_KEYS
    requires Increasing(s'.keys) && forall k :: k in s'.keys <==> k in s.keys || k == key
    ensures SameLeaf(s, s', key)
  {
  }

  // ----- splitting a leaf -----

  function LowerLeaf(s: Tree, keys: seq<int>, rids: seq<int>, id: int): Tree
    requires s.Leaf? && |keys| == |rids| == MAX_KEYS + 1
  {
    Leaf(s.id, keys[..MID], rids[..MID], id)
  }

  function UpperLeaf(s: Tree, keys: seq<int>, rids: seq<int>, id: int): Tree
    requires s.Leaf? && |keys| == |rids| == MAX_KEYS + 1
  {
    Leaf(id, keys[MID..], rids[MID..], s.next)
  }

  lemma LeafHalves(fs: seq<Frame>, s: Tree, key: int, rid: int, id: int)
    requires s.Leaf? && LeafOk(s) && key !in s.keys && |s.keys| == MAX_KEYS && FramesOk(fs)
    ensures |LeafKeys(s.keys, key)| == |LeafRids(s.keys, s.rids, key, rid)| == MAX_KEYS + 1
    ensures var ks, rs := LeafKeys(s.keys, key), LeafRids(s.keys, s.rids, key, rid);
            var l, r := LowerLeaf(s, ks, rs, id), UpperLeaf(s, ks, rs, id);
            && LeafOk(l) && LeafOk(r) && SplitOf(s, l, ks[MID], r, key)
            && Zip(l.keys, l.rids) + Zip(r.keys, r.rids) == SeqPut(Zip(s.keys, s.rids), key, rid)
  {
    LeafPut(s.keys, s.rids, key, rid);
    hide LeafKeys, LeafRids, SeqPut, Zip, SplitOf, LeafOk, Rank;
    var ks, rs := LeafKeys(s.keys, key), LeafRids(s.keys, s.rids, key, rid);
    var l, r := LowerLeaf(s, ks, rs, id), UpperLeaf(s, ks, rs, id);
    ZipHalves(ks, rs);
    HalvesOk(s, ks, rs, id);
    HalfKeys(s, l, r, ks, key);
  }

  lemma ZipHalves(ks: seq<int>, rs: seq<int>)
    requires |ks| == |rs| == MAX_KEYS + 1
    ensures Zip(ks, rs) == Zip(ks[..MID], rs[..MID]) + Zip(ks[MID..], rs[MID..])
  {
  }

  lemma HalvesOk(s: Tree, ks: seq<int>, rs: seq<int>, id: int)
    requires s.Leaf? && |ks| == |rs| == MAX_KEYS + 1 && Increasing(ks)
    ensures LeafOk(LowerLeaf(s, ks, rs, id)) && LeafOk(UpperLeaf(s, ks, rs, id))
  {
  }

  lemma HalfKeys(s: Tree, l: Tree, r: Tree, ks: seq<int>, key: int)
    requires s.Leaf? && LeafOk(l) && LeafOk(r) && |ks| == MAX_KEYS + 1 && Increasing(ks)
    requires l.keys == ks[..MID] && r.keys == ks[MID..] && forall k :: k in ks <==> k in s.keys || k == key
    ensures SplitOf(s, l, ks[MID], r, key)
  {
    assert Leaves(l) == [l] && Leaves(r) == [r] && Leaves(s) == [s];
    assert s in [s];
    forall k | k in KeySet([l]) ensures k < ks[MID] && k in ks {
      var j :| 0 <= j < MID && l.keys[j] == k;
      assert ks[j] == k;
    }
    forall k | k in KeySet([r]) ensures ks[MID] <= k && k in ks {
      var j :| 0 <= j < |r.keys| && r.keys[j] == k;
      assert ks[MID + j] == k;
    }
  }

  // ----- the grid in the middle of a split -----

  /** The path is stored down to a node split into l and r, both stored; only
      the link to r is still missing. */
  ghost predicate Midway(g: Grid, fs: seq<Frame>, l: Tree, r: Tree, next: int) {
    && FramesOk(fs) && PathStored(g, fs, l.id) && Stores(g, l) && Stores(g, r)
    && IdsMidway(fs, l, r, next)
  }

  ghost predicate IdsMidway(fs: seq<Frame>, l: Tree, r: Tree, next: int)
    requires FramesOk(fs)
  {
    && PathApart(fs) && Apart(l) && Apart(r) && Ids(l) !! Ids(r) && PathIds(fs) !! Ids(l) && PathIds(fs) !! Ids(r)
    && Bounded(PathIds(fs), next) && Bounded(Ids(l), next) && Bounded(Ids(r), next)
  }

  lemma LeafSplitStored(g: Grid, g': Grid, fs: seq<Frame>, s: Tree, leaf: Node, l: Tree, r: Tree, next: int)
    requires FramesOk(fs) && Held(g, Plug(fs, s), next) && s.Leaf?
    requires leaf.id == s.id && |leaf.keys| == |leaf.children| == MAX_KEYS + 1 && leaf.next == s.next
    requires l == LowerLeaf(s, leaf.keys, leaf.children, next) && r == UpperLeaf(s, leaf.keys, leaf.children, next)
    requires g' == g[s.id := Encode(leaf)]
                    [next := Encode(Node(next, true, leaf.keys[MID..], leaf.children[MID..], leaf.next))]
                    [s.id := Encode(Node(leaf.id, true, leaf.keys[..MID], leaf.children[..MID], next))]
    ensures Midway(g', fs, l, r, next + 1)
  {
    hide Encode, Parse, PathStored, Plug, Good, Ids, Apart;
    var t := Plug(fs, s);
    PlugIds(fs, s);
    PlugStored(g, fs, s);
    LeafIds(s);
    LeafIds(l);
    LeafIds(r);
    WriteReads(g, leaf);
    var g1 := g[s.id := Encode(leaf)];
    WriteReads(g1, NodeOf(r));
    var g2 := g1[next := Encode(NodeOf(r))];
    WriteReads(g2, NodeOf(l));
    assert g' == g2[s.id := Encode(NodeOf(l))];
    PathFrame(g, g', fs, s.id);
  }

  lemma RootOf(fs: seq<Frame>, s: Tree)
    requires FramesOk(fs)
    ensures Plug(fs, s).id == if fs == [] then s.id else fs[0].id
    decreases |fs|
  {
    if fs != [] {
      RootOf(fs[..|fs| - 1], Fill(fs[|fs| - 1], s));
    }
  }

  lemma RootStays(g: Grid, g': Grid, l: Tree, x: int, r: Tree, id: int)
    requires Midway(g, [], l, r, id)
    requires g' == g[id := Encode(Node(id, false, [x], [l.id, r.id], -1))]
    ensures Stores(g', NewRoot(id, l, x, r)) && Climb([], l, x, r, id) == (NewRoot(id, l, x, r), id + 1)
  {
    hide Encode, Parse, Ids, Apart, Good;
    var n := Node(id, false, [x], [l.id, r.id], -1);
    WriteReads(g, n);
    StoresFrame(g, g', l);
    StoresFrame(g, g', r);
    var t := NewRoot(id, l, x, r);
    assert KidIds(t.kids) == [l.id, r.id];
    assert [x] + [r.id] == [x, r.id];
    StoresInner(g', t);
  }

  lemma StoresInner(g: Grid, t: Tree)
    requires t.Inner? && ReadNode(g, t.id) == Some(NodeOf(t))
    requires forall i :: 0 <= i < |t.kids| ==> Stores(g, t.kids[i])
    ensures Stores(g, t)
  {
  }

  // ----- the parent of a split node -----

  /** Where left stands among the children; failing that, where x belongs. */
  method ChildPosition(parent: Node, left: int, x: int) returns (pos: nat)
    ensures left in parent.children
            ==> pos < |parent.children| && parent.children[pos] == left && left !in parent.children[..pos]
    ensures left !in parent.children ==> pos == Rank(parent.keys, x)
  {
    pos := 0;
    while pos < |parent.children|
      invariant 0 <= pos <= |parent.children| && left !in parent.children[..pos]
    {
      if parent.children[pos] == left {
        return;
      }
      pos := pos + 1;
    }
    pos := InsertionPoint(parent.keys, x);
  }

  lemma KidId(f: Frame, j: nat)
    requires FrameOk(f) && j < |f.kids| && j != f.i
    ensures f.kids[j].id in SideIds(f) && Ids(f.kids[j]) <= SideIds(f)
    ensures SideApart(f) ==> f.id !in Ids(f.kids[j])
  {
    hide IdsAll;
    if j < f.i {
      IdOfKid(LeftKids(f), j);
    } else {
      IdOfKid(RightKids(f), j - f.i - 1);
    }
    assert f.kids[j].id in Ids(f.kids[j]);
  }

  /** The split node's id occurs once among the parent's children. */
  lemma HolePosition(fs: seq<Frame>, l: Tree, r: Tree, g: Grid, next: int)
    requires fs != [] && Midway(g, fs, l, r, next) && Aligned(fs, l.id)
    ensures var f := fs[|fs| - 1];
            && FrameOk(f) && f.kids[f.i].id == l.id && KidIds(f.kids)[f.i] == l.id
            && (forall j :: 0 <= j < f.i ==> KidIds(f.kids)[j] != l.id)
            && 0 <= f.id < next && FramesOk(fs[..|fs| - 1])
  {
    hide Stores, PathStored, PathApart, Apart, KidIds, Ids, IdsAll;
    MidwayUp(fs, l, r, g, next);
    hide Midway;
    var f := fs[|fs| - 1];
    assert l.id in Ids(l) && PathIds(fs) !! Ids(l) && Bounded(PathIds(fs), next) by { MidwayOwn(fs, l, r, g, next); }
    forall j | 0 <= j < f.i ensures KidIds(f.kids)[j] != l.id {
      KidId(f, j);
    }
  }

  lemma MidwayOwn(fs: seq<Frame>, l: Tree, r: Tree, g: Grid, next: int)
    requires Midway(g, fs, l, r, next)
    ensures l.id in Ids(l) && FramesOk(fs) && PathIds(fs) !! Ids(l) && PathIds(fs) !! Ids(r)
    ensures Bounded(PathIds(fs), next) && Bounded(Ids(l), next) && Bounded(Ids(r), next)
    ensures Stores(g, l) && Stores(g, r)
  {
  }

  lemma HalfIds(w: Tree, id: int)
    requires w.Inner? && |w.keys| == |w.kids| == MAX_KEYS + 1
    ensures LowerHalf(w).id == w.id && UpperHalf(w, id).id == id
  {
  }

  lemma InnerNode(t: Tree)
    requires t.Inner?
    ensures NodeOf(t) == Node(t.id, false, t.keys, KidIds(t.kids), -1)
  {
  }

  lemma WidenNode(f: Frame, l: Tree, x: int, r: Tree)
    requires FrameOk(f) && f.kids[f.i].id == l.id
    ensures var p := FrameNode(f);
            NodeOf(Widen(f, l, x, r)) ==
            p.(keys := p.keys[..f.i] + [x] + p.keys[f.i..],
                children := p.children[..f.i + 1] + [r.id] + p.children[f.i + 1..])
    ensures var w := Widen(f, l, x, r);
            w.Inner? && w.id == f.id && |w.keys| == |w.kids| == |f.kids| + 1
  {
    var w := Widen(f, l, x, r);
    var ids := KidIds(f.kids);
    assert KidIds(w.kids) == ids[..f.i + 1] + [r.id] + ids[f.i + 1..];
  }

  /** A grid changed only at the parent and at a new id still stores all the
      children of the widened parent. */
  lemma WideKidsStored(g: Grid, g': Grid, fs: seq<Frame>, l: Tree, x: int, r: Tree, next: int, j: nat)
    requires fs != [] && Midway(g, fs, l, r, next)
    requires FrameOk(fs[|fs| - 1])
    requires forall id :: id != fs[|fs| - 1].id && id != next ==> ReadNode(g', id) == ReadNode(g, id)
    requires j < |Widen(fs[|fs| - 1], l, x, r).kids|
    ensures Stores(g', Widen(fs[|fs| - 1], l, x, r).kids[j])
  {
    hide ReadNode, Stores, Ids, Widen, Midway;
    var f := fs[|fs| - 1];
    WidenAt(f, l, x, r);
    WideKidIn(g, fs, l, r, next, j);
    var k := Widen(f, l, x, r).kids[j];
    assert k == WideKid(f, l, r, j);
    StoresFrame(g, g', k);
  }

  lemma WideKidIn(g: Grid, fs: seq<Frame>, l: Tree, r: Tree, next: int, j: nat)
    requires fs != [] && Midway(g, fs, l, r, next) && FrameOk(fs[|fs| - 1]) && j <= |fs[|fs| - 1].kids|
    ensures var k := WideKid(fs[|fs| - 1], l, r, j);
            Stores(g, k) && fs[|fs| - 1].id !in Ids(k) && next !in Ids(k)
  {
    hide ReadNode, Apart, IdsAll, ApartAll, Midway, Ids, Stores, PathIds, PathStored, PathApart, SideIds;
    var f := fs[|fs| - 1];
    MidwayUp(fs, l, r, g, next);
    MidwayOwn(fs, l, r, g, next);
    MidwayFrame(fs, l, r, g, next);
    if j < f.i {
      KidId(f, j);
    } else if j > f.i + 1 {
      KidId(f, j - 1);
    }
  }

  lemma MidwayFrame(fs: seq<Frame>, l: Tree, r: Tree, g: Grid, next: int)
    requires fs != [] && Midway(g, fs, l, r, next)
    ensures FrameOk(fs[|fs| - 1]) && FrameStored(g, fs[|fs| - 1], l.id)
  {
    assert fs[|fs| - 1] in fs;
  }

  lemma MidwayUp(fs: seq<Frame>, l: Tree, r: Tree, g: Grid, next: int)
    requires fs != [] && Midway(g, fs, l, r, next)
    ensures var f := fs[|fs| - 1];
            var up := fs[..|fs| - 1];
            && FrameOk(f) && FramesOk(up) && PathStored(g, up, f.id) && PathApart(up) && SideApart(f)
            && ApartAll(LeftKids(f)) && ApartAll(RightKids(f))
            && PathIds(up) !! SideIds(f) && PathIds(fs) == PathIds(up) + SideIds(f)
            && next !in PathIds(fs) && f.id in PathIds(fs) && 0 <= f.id < next
  {
    hide Stores, Ids, Apart, IdsAll, ApartAll, FrameStored;
    var f := fs[|fs| - 1];
    assert f in fs;
    assert f.id in SideIds(f);
    assert f.id in PathIds(fs);
  }

  lemma WidenedStored(g: Grid, g': Grid, fs: seq<Frame>, l: Tree, x: int, r: Tree, next: int)
    requires fs != [] && Midway(g, fs, l, r, next) && FrameOk(fs[|fs| - 1])
             && fs[|fs| - 1].kids[fs[|fs| - 1].i].id == l.id
    requires var w := Widen(fs[|fs| - 1], l, x, r);
             g' == g[w.id := Encode(NodeOf(w))] && |w.keys| != MAX_KEYS + 1
    ensures var c := Climb(fs, l, x, r, next);
            Stores(g', c.0) && c.1 == next && c.0.id == fs[0].id
  {
    hide Stores, Encode, Parse, Apart, Ids, IdsAll, ApartAll, PathStored, PathIds, PathApart, Midway, Plug;
    var f, up := fs[|fs| - 1], fs[..|fs| - 1];
    var w := Widen(f, l, x, r);
    MidwayUp(fs, l, r, g, next);
    WidenAt(f, l, x, r);
    WriteReads(g, NodeOf(w));
    forall j | 0 <= j < |w.kids| ensures Stores(g', w.kids[j]) {
      WideKidsStored(g, g', fs, l, x, r, next, j);
    }
    StoresInner(g', w);
    PathFrame(g, g', up, f.id) by { IdApart(f, up); }
    PlugStored(g', up, w);
    RootOf(up, w);
  }

  lemma IdApart(f: Frame, up: seq<Frame>)
    requires FrameOk(f) && FramesOk(up) && PathIds(up) !! SideIds(f)
    ensures f.id !in PathIds(up)
  {
  }

  lemma HalvesStored(g: Grid, g': Grid, fs: seq<Frame>, l: Tree, x: int, r: Tree, next: int)
    requires fs != [] && Midway(g, fs, l, r, next) && FrameOk(fs[|fs| - 1])
    requires var w := Widen(fs[|fs| - 1], l, x, r);
             && |w.keys| == |w.kids| == MAX_KEYS + 1
             && g' == g[w.id := Encode(NodeOf(w))]
                    [next := Encode(Node(next, false, w.keys[MID + 1..], KidIds(w.kids)[MID + 1..], -1))]
                       [w.id := Encode(Node(w.id, false, w.keys[..MID], KidIds(w.kids)[..MID + 1], -1))]
    ensures var w := Widen(fs[|fs| - 1], l, x, r);
            var up := fs[..|fs| - 1];
            && Midway(g', up, LowerHalf(w), UpperHalf(w, next), next + 1)
            && Climb(fs, l, x, r, next) == Climb(up, LowerHalf(w), w.keys[MID], UpperHalf(w, next), next + 1)
  {
    hide Encode, Parse, PathStored, PathApart;
    var f, up := fs[|fs| - 1], fs[..|fs| - 1];
    var w := Widen(f, l, x, r);
    var lo, hi := LowerHalf(w), UpperHalf(w, next);
    MidwayUp(fs, l, r, g, next);
    IdApart(f, up);
    hide Midway, Stores, Apart, Ids, IdsAll, ApartAll, PathIds, Widen, Climb;
    HalvesRead(g, g', w, next);
    forall j | 0 <= j < |w.kids| ensures Stores(g', w.kids[j]) {
      WideKidsStored(g, g', fs, l, x, r, next, j);
    }
    assert forall j :: 0 <= j < |lo.kids| ==> lo.kids[j] == w.kids[j];
    assert forall j :: 0 <= j < |hi.kids| ==> hi.kids[j] == w.kids[MID + 1 + j];
    StoresInner(g', lo);
    StoresInner(g', hi);
    PathFrame(g, g', up, f.id) by { assert f.id !in PathIds(up) && next !in PathIds(up); }
    HalvesIds(fs, l, x, r, next) by { MidwayIds(g, fs, l, r, next); }
    MidwayFrom(g', up, lo, hi, next + 1);
    ClimbUp(fs, l, x, r, next);
  }

  lemma MidwayIds(g: Grid, fs: seq<Frame>, l: Tree, r: Tree, next: int)
    requires Midway(g, fs, l, r, next)
    ensures FramesOk(fs) && IdsMidway(fs, l, r, next)
  {
  }

  lemma MidwayFrom(g: Grid, fs: seq<Frame>, l: Tree, r: Tree, next: int)
    requires FramesOk(fs) && PathStored(g, fs, l.id) && Stores(g, l) && Stores(g, r) && IdsMidway(fs, l, r, next)
    ensures Midway(g, fs, l, r, next)
  {
  }

  lemma ClimbUp(fs: seq<Frame>, l: Tree, x: int, r: Tree, next: int)
    requires fs != [] && FramesOk(fs)
             && |Widen(fs[|fs| - 1], l, x, r).keys| == |Widen(fs[|fs| - 1], l, x, r).kids| == MAX_KEYS + 1
    ensures var w := Widen(fs[|fs| - 1], l, x, r);
            Climb(fs, l, x, r, next) == Climb(fs[..|fs| - 1], LowerHalf(w), w.keys[MID], UpperHalf(w, next), next + 1)
  {
  }

  /** The two halves as they read back. */
  lemma HalvesRead(g: Grid, g': Grid, w: Tree, next: int)
    requires w.Inner? && |w.keys| == |w.kids| == MAX_KEYS + 1 && next != w.id
    requires g' == g[w.id := Encode(NodeOf(w))]
                    [next := Encode(Node(next, false, w.keys[MID + 1..], KidIds(w.kids)[MID + 1..], -1))]
                    [w.id := Encode(Node(w.id, false, w.keys[..MID], KidIds(w.kids)[..MID + 1], -1))]
    ensures ReadNode(g', w.id) == Some(NodeOf(LowerHalf(w))) && ReadNode(g', next) == Some(NodeOf(UpperHalf(w, next)))
    ensures forall id :: id != w.id && id != next ==> ReadNode(g', id) == ReadNode(g, id)
  {
    hide Encode, Parse;
    var lo := Node(w.id, false, w.keys[..MID], KidIds(w.kids)[..MID + 1], -1);
    var hi := Node(next, false, w.keys[MID + 1..], KidIds(w.kids)[MID + 1..], -1);
    WriteReads(g, NodeOf(w));
    var g1 := g[w.id := Encode(NodeOf(w))];
    WriteReads(g1, hi);
    WriteReads(g1[next := Encode(hi)], lo);
    assert KidIds(LowerHalf(w).kids) == KidIds(w.kids)[..MID + 1];
    assert KidIds(UpperHalf(w, next).kids) == KidIds(w.kids)[MID + 1..];
    assert Parsed(lo) == NodeOf(LowerHalf(w));
    assert Parsed(hi) == NodeOf(UpperHalf(w, next));
  }

  lemma WidenIds(f: Frame, l: Tree, x: int, r: Tree)
    requires FrameOk(f)
    ensures IdsAll(Widen(f, l, x, r).kids) == IdsAll(LeftKids(f)) + Ids(l) + Ids(r) + IdsAll(RightKids(f))
    ensures Ids(l) !! Ids(r) && Apart(l) && Apart(r) && SideApart(f) && ApartAll(LeftKids(f)) && ApartAll(RightKids(f))
            && Ids(l) !! SideIds(f) && Ids(r) !! SideIds(f)
            ==> ApartAll(Widen(f, l, x, r).kids) && f.id !in IdsAll(Widen(f, l, x, r).kids)
  {
    hide Ids, Apart, IdsAll, ApartAll;
    var a, b := LeftKids(f), RightKids(f);
    assert Widen(f, l, x, r).kids == a + [l, r] + b;
    assert [l, r] == [l] + [r];
    IdsAppend(a + [l, r], b);
    IdsAppend(a, [l, r]);
    IdsAppend([l], [r]);
    IdsOne(l);
    IdsOne(r);
    ApartAppend(a + [l, r], b);
    ApartAppend(a, [l, r]);
    ApartAppend([l], [r]);
  }

  lemma HalvesIds(fs: seq<Frame>, l: Tree, x: int, r: Tree, next: int)
    requires fs != [] && FramesOk(fs) && IdsMidway(fs, l, r, next) && FrameOk(fs[|fs| - 1])
    requires |Widen(fs[|fs| - 1], l, x, r).keys| == |Widen(fs[|fs| - 1], l, x, r).kids| == MAX_KEYS + 1
    ensures var w := Widen(fs[|fs| - 1], l, x, r);
            FramesOk(fs[..|fs| - 1]) && IdsMidway(fs[..|fs| - 1], LowerHalf(w), UpperHalf(w, next), next + 1)
  {
    hide Ids, Apart, IdsAll, ApartAll, SideApart;
    var f, up := fs[|fs| - 1], fs[..|fs| - 1];
    var w := Widen(f, l, x, r);
    WidenIds(f, l, x, r);
    hide Widen;
    SplitIds(w, next);
    assert PathIds(fs) == PathIds(up) + SideIds(f);
  }

  lemma SplitIds(w: Tree, next: int)
    requires w.Inner? && |w.keys| == |w.kids| == MAX_KEYS + 1
    ensures var lo, hi := LowerHalf(w), UpperHalf(w, next);
            && Ids(lo) + Ids(hi) == IdsAll(w.kids) + {w.id, next}
            && (ApartAll(w.kids) && w.id !in IdsAll(w.kids) && next !in IdsAll(w.kids) && next != w.id
                ==> Apart(lo) && Apart(hi) && Ids(lo) !! Ids(hi))
  {
    hide IdsAll, ApartAll;
    var lo, hi := LowerHalf(w), UpperHalf(w, next);
    assert w.kids == lo.kids + hi.kids;
    IdsAppend(lo.kids, hi.kids);
    ApartAppend(lo.kids, hi.kids);
  }

  /** However far a split climbs, ids stay distinct and below the new bound. */
  lemma {:induction false} ClimbIds(fs: seq<Frame>, l: Tree, x: int, r: Tree, next: int)
    requires FramesOk(fs) && IdsMidway(fs, l, r, next) && 0 <= next
    ensures var c := Climb(fs, l, x, r, next);
            next <= c.1 && Apart(c.0) && Bounded(Ids(c.0), c.1)
    decreases |fs|
  {
    hide Ids, Apart, IdsAll, ApartAll, Widen, PathIds, Plug, SideApart, PathApart, LowerHalf, UpperHalf, NewRoot;
    if fs == [] {
      NewRootIds(next, l, x, r);
    } else {
      hide IdsMidway;
      var f, up := fs[|fs| - 1], fs[..|fs| - 1];
      assert f in fs;
      var w := Widen(f, l, x, r);
      WidenAt(f, l, x, r);
      if |w.keys| == MAX_KEYS + 1 {
        HalvesIds(fs, l, x, r, next);
        ClimbIds(up, LowerHalf(w), w.keys[MID], UpperHalf(w, next), next + 1);
      } else {
        PlugIds(up, w);
        WidenedIds(fs, l, x, r, next);
      }
    }
  }

  lemma WidenedIds(fs: seq<Frame>, l: Tree, x: int, r: Tree, next: int)
    requires fs != [] && FramesOk(fs) && IdsMidway(fs, l, r, next) && FrameOk(fs[|fs| - 1])
    ensures var w := Widen(fs[|fs| - 1], l, x, r);
            var up := fs[..|fs| - 1];
            Apart(w) && PathApart(up) && PathIds(up) !! Ids(w) && Bounded(PathIds(up), next) && Bounded(Ids(w), next)
  {
    hide IdsAll, ApartAll, SideApart;
    var f, up := fs[|fs| - 1], fs[..|fs| - 1];
    WidenIds(f, l, x, r);
    assert PathIds(fs) == PathIds(up) + SideIds(f);
    InnerIds(Widen(f, l, x, r));
  }

  lemma InnerIds(w: Tree)
    requires w.Inner?
    ensures Ids(w) == {w.id} + IdsAll(w.kids) && (Apart(w) <==> w.id !in IdsAll(w.kids) && ApartAll(w.kids))
  {
  }

  lemma NewRootIds(id: int, l: Tree, x: int, r: Tree)
    requires Apart(l) && Apart(r) && Ids(l) !! Ids(r) && id !in Ids(l) && id !in Ids(r)
    ensures Ids(NewRoot(id, l, x, r)) == {id} + Ids(l) + Ids(r) && Apart(NewRoot(id, l, x, r))
  {
    assert [l, r] == [l] + [r];
    IdsAppend([l], [r]);
    ApartAppend([l], [r]);
    IdsOne(l);
    IdsOne(r);
  }

  /** After a split has climbed and everything is stored, the tree is whole and
      its contents are updated at the key that caused it. */
  lemma SplitHolds(g: Grid, g': Grid, fs: seq<Frame>, s: Tree, l: Tree, x: int, r: Tree, key: int, rid: int, next: int)
    requires FramesOk(fs) && Held(g, Plug(fs, s), next) && Routed(fs, key) && 0 <= next
    requires LeafOk(s) && LeafOk(l) && LeafOk(r) && SplitOf(s, l, x, r, key)
    requires l.id == s.id && l.next == r.id == next && r.next == s.next
    requires Zip(l.keys, l.rids) + Zip(r.keys, r.rids) == SeqPut(Zip(s.keys, s.rids), key, rid)
    requires Stores(g', Climb(fs, l, x, r, next + 1).0)
    ensures var c := Climb(fs, l, x, r, next + 1);
            Held(g', c.0, c.1) && 0 <= c.0.id && next < c.1 && Contents(c.0) == SeqPut(Contents(Plug(fs, s)), key, rid)
  {
    hide Good, Stores, Apart, Ids, Contents, EntriesOf, SeqPut, KeySet, Plug, LeafOk, Chained, Climb, SplitOf, PathIds,
         PathApart;
    LeafShape(s);
    LeafShape(l);
    LeafShape(r);
    var t := Plug(fs, s);
    var c := Climb(fs, l, x, r, next + 1);
    ClimbGood(fs, s, l, x, r, key, next + 1);
    PlugIds(fs, s);
    LeafIds(s);
    LeafIds(l);
    LeafIds(r);
    ClimbIds(fs, l, x, r, next + 1);
    OwnId(c.0);
    PlugLeaves(fs, s);
    assert [l] + [r] == [l, r];
    assert forall y :: y in LeftOf(fs) + [s] + RightOf(fs) ==> y in Leaves(t);
    ChainSplit(LeftOf(fs), s, l, r, RightOf(fs));
    SplitContents(fs, s, l, r, c.0, key, rid);
  }

  lemma OwnId(t: Tree)
    ensures t.id in Ids(t)
  {
  }

  predicate Sized(fs: seq<Frame>) {
    forall f :: f in fs ==> |f.kids| <= MAX_KEYS
  }

  lemma BeforeInsert(g: Grid, fs: seq<Frame>, l: Tree, r: Tree, next: int)
    requires fs != [] && Midway(g, fs, l, r, next) && Aligned(fs, l.id) && Sized(fs)
    ensures var f, up := fs[|fs| - 1], fs[..|fs| - 1];
            && FrameOk(f) && |f.kids| <= MAX_KEYS && f.kids[f.i].id == l.id && KidIds(f.kids)[f.i] == l.id
            && (forall j :: 0 <= j < f.i ==> KidIds(f.kids)[j] != l.id)
            && 0 <= f.id < next && FramesOk(up) && Aligned(up, f.id) && Sized(up)
  {
    HolePosition(fs, l, r, g, next);
    hide Midway, KidIds;
    assert fs[|fs| - 1] in fs;
  }

  lemma {:induction false} PathSizes(fs: seq<Frame>, s: Tree)
    requires FramesOk(fs) && Good(Plug(fs, s))
    ensures Sized(fs)
    decreases |fs|
  {
    hide Good;
    if fs != [] {
      var f, up := fs[|fs| - 1], fs[..|fs| - 1];
      PathSizes(up, Fill(f, s));
      PlugGood(up, Fill(f, s));
      FillFacts(f, s);
      assert fs == up + [f];
    }
  }

  lemma SplitContents(fs: seq<Frame>, s: Tree, l: Tree, r: Tree, t': Tree, key: int, rid: int)
    requires FramesOk(fs) && Good(Plug(fs, s)) && Routed(fs, key) && LeafOk(s) && LeafOk(l) && LeafOk(r)
    requires Good(t') && Leaves(t') == LeftOf(fs) + [l, r] + RightOf(fs)
    requires Zip(l.keys, l.rids) + Zip(r.keys, r.rids) == SeqPut(Zip(s.keys, s.rids), key, rid)
    ensures Contents(t') == SeqPut(Contents(Plug(fs, s)), key, rid)
  {
    hide Good, EntriesOf, SeqPut, Plug, LeafOk, Zip;
    LeafShape(s);
    LeafShape(l);
    LeafShape(r);
    var a, c := ContentsAround(fs, s, key);
    PutAround(a, Zip(s.keys, s.rids), c, key, rid);
    assert [l, r] == [l] + [r];
    EntriesOne(l);
    EntriesOne(r);
    EntriesAppend([l], [r]);
    EntriesAppend(LeftOf(fs), [l, r]);
    EntriesAppend(LeftOf(fs) + [l, r], RightOf(fs));
  }

  // ----- the leaf chain -----

  lemma {:induction false} LeafStored(g: Grid, t: Tree, i: nat)
    requires Stores(g, t) && i < |Leaves(t)|
    ensures ReadNode(g, Leaves(t)[i].id) == Some(NodeOf(Leaves(t)[i])) && Leaves(t)[i].id in Ids(t)
    decreases t, 1
  {
    if t.Inner? {
      KidLeafStored(g, t.kids, i);
    }
  }

  lemma {:induction false} KidLeafStored(g: Grid, ts: seq<Tree>, i: nat)
    requires (forall j :: 0 <= j < |ts| ==> Stores(g, ts[j])) && i < |LeavesAll(ts)|
    ensures ReadNode(g, LeavesAll(ts)[i].id) == Some(NodeOf(LeavesAll(ts)[i])) && LeavesAll(ts)[i].id in IdsAll(ts)
    decreases ts, 0
  {
    if ts != [] {
      var n := |Leaves(ts[0])|;
      if i < n {
        LeafStored(g, ts[0], i);
      } else {
        KidLeafStored(g, ts[1..], i - n);
      }
    }
  }

  /** The chain never returns to a leaf: leaves have distinct ids. */
  lemma {:induction false} LeavesApart(g: Grid, t: Tree, i: nat, j: nat)
    requires Stores(g, t) && Apart(t) && i < j < |Leaves(t)|
    ensures Leaves(t)[i].id != Leaves(t)[j].id
    decreases t, 1
  {
    if t.Inner? {
      KidLeavesApart(g, t.kids, i, j);
    }
  }

  lemma {:induction false} KidLeavesApart(g: Grid, ts: seq<Tree>, i: nat, j: nat)
    requires (forall j :: 0 <= j < |ts| ==> Stores(g, ts[j])) && ApartAll(ts) && i < j < |LeavesAll(ts)|
    ensures LeavesAll(ts)[i].id != LeavesAll(ts)[j].id
    decreases ts, 0
  {
    if ts != [] {
      var n := |Leaves(ts[0])|;
      if j < n {
        LeavesApart(g, ts[0], i, j);
      } else if i >= n {
        KidLeavesApart(g, ts[1..], i - n, j - n);
      } else {
        LeafStored(g, ts[0], i);
        KidLeafStored(g, ts[1..], j - n);
      }
    }
  }

  /** Every leaf of a good tree lies at the same depth. */
  lemma {:induction false} UniformDepth(fs: seq<Frame>, s: Tree)
    requires FramesOk(fs) && Good(Plug(fs, s))
    ensures Height(Plug(fs, s)) == |fs| + Height(s)
    decreases |fs|
  {
    hide Good;
    if fs != [] {
      var f, up := fs[|fs| - 1], fs[..|fs| - 1];
      UniformDepth(up, Fill(f, s));
      PlugGood(up, Fill(f, s));
      FillFacts(f, s);
    }
  }

  // ----- scanning -----

  /** One leaf of a scan: the live ids in range, and whether a key at or past
      the end was met. */
  method ScanLeaf(keys: seq<int>, rids: seq<int>, start: int, stop: int) returns (out: seq<int>, over: bool)
    requires |keys| == |rids| && Increasing(keys)
    ensures out == Select(Zip(keys, rids), start, stop)
    ensures over <==> exists i :: 0 <= i < |keys| && keys[i] >= stop
  {
    hide Select, Zip, Increasing;
    ghost var e := Zip(keys, rids);
    out := [];
    var i := 0;
    while i < |keys|
      invariant 0 <= i <= |keys|
      invariant forall j :: 0 <= j < i ==> keys[j] < stop
      invariant Select(e, start, stop) == out + Select(e[i..], start, stop)
    {
      if keys[i] >= stop {
        SelectPast(keys, rids, i, start, stop);
        return out, true;
      }
      SelectAt(keys, rids, i, start, stop, out);
      if keys[i] >= start && rids[i] >= 0 {
        out := out + [rids[i]];
      }
      i := i + 1;
    }
    SelectNone(e[i..], start, stop);
    over := false;
  }

  lemma SelectAt(keys: seq<int>, rids: seq<int>, i: nat, start: int, stop: int, out: seq<int>)
    requires |keys| == |rids| && i < |keys|
    ensures var e := Zip(keys, rids);
            out + Select(e[i..], start, stop)
              == (if start <= keys[i] < stop && rids[i] >= 0 then out + [rids[i]] else out)
                 + Select(e[i + 1..], start, stop)
  {
    var e := Zip(keys, rids);
    assert e[i..][1..] == e[i + 1..] && e[i..][0] == (keys[i], rids[i]);
    var more := Select(e[i + 1..], start, stop);
    assert out + ([rids[i]] + more) == (out + [rids[i]]) + more && [] + more == more;
  }

  lemma SelectPast(keys: seq<int>, rids: seq<int>, i: nat, start: int, stop: int)
    requires |keys| == |rids| && Increasing(keys) && i < |keys| && stop <= keys[i]
    ensures Select(Zip(keys, rids)[i..], start, stop) == []
  {
    hide Select;
    SelectNone(Zip(keys, rids)[i..], start, stop);
  }

  lemma SelectSplit(ls: seq<Tree>, p: nat, start: int, stop: int)
    requires LeavesOk(ls) && p < |ls|
    ensures LeavesOk(ls[..p]) && LeavesOk(ls[..p + 1]) && ls[p].Leaf? && |ls[p].keys| == |ls[p].rids|
            && Increasing(ls[p].keys)
    ensures Select(EntriesOf(ls[..p + 1]), start, stop)
         == Select(EntriesOf(ls[..p]), start, stop) + Select(Zip(ls[p].keys, ls[p].rids), start, stop)
  {
    assert ls[p] in ls;
    assert ls[..p + 1] == ls[..p] + [ls[p]];
    EntriesOne(ls[p]);
    EntriesAppend(ls[..p], [ls[p]]);
    SelectAppend(EntriesOf(ls[..p]), Zip(ls[p].keys, ls[p].rids), start, stop);
  }

  /** Once a leaf holds a key at or past the end, later leaves add nothing. */
  lemma SelectStops(ls: seq<Tree>, p: nat, start: int, stop: int)
    requires LeavesOk(ls) && p < |ls| && Sorted(EntriesOf(ls))
    requires exists i :: 0 <= i < |ls[p].keys| && ls[p].keys[i] >= stop
    ensures LeavesOk(ls[..p + 1]) && Select(EntriesOf(ls), start, stop) == Select(EntriesOf(ls[..p + 1]), start, stop)
  {
    hide Zip;
    var a, b := ls[..p], ls[p + 1..];
    assert ls[p] in ls;
    assert ls == (a + [ls[p]]) + b && ls[..p + 1] == a + [ls[p]];
    assert LeavesOk(a) && LeavesOk(b);
    EntriesOne(ls[p]);
    EntriesAppend(a, [ls[p]]);
    EntriesAppend(a + [ls[p]], b);
    var e, ea, eb := EntriesOf(ls), EntriesOf(a), EntriesOf(b);
    var i :| 0 <= i < |ls[p].keys| && ls[p].keys[i] >= stop;
    ZipAt(ls[p].keys, ls[p].rids, i);
    var q := |ea| + i;
    var m := |ea| + |Zip(ls[p].keys, ls[p].rids)|;
    assert e[q].0 >= stop;
    forall k | 0 <= k < |eb| ensures eb[k].0 >= stop {
      assert e[m + k] == eb[k];
      assert e[q].0 < e[m + k].0;
    }
    SelectNone(eb, start, stop);
    SelectAppend(EntriesOf(a + [ls[p]]), eb, start, stop);
  }

  lemma ZipAt(keys: seq<int>, rids: seq<int>, i: nat)
    requires |keys| == |rids| && i < |keys|
    ensures |Zip(keys, rids)| == |keys| && Zip(keys, rids)[i].0 == keys[i]
  {
  }

  /** A scan may begin at the leaf the start key routes to. */
  lemma ScanStarts(fs: seq<Frame>, s: Tree, start: int, stop: int)
    requires FramesOk(fs) && Good(Plug(fs, s)) && Routed(fs, start) && s.Leaf?
    ensures var ls := Leaves(Plug(fs, s));
            var p := |LeftOf(fs)|;
            LeavesOk(ls) && p < |ls| && ls[p] == s && Select(EntriesOf(ls[..p]), start, stop) == []
  {
    hide Good, Plug;
    GoodLeaves(Plug(fs, s));
    PlugLeaves(fs, s);
    LeafIds(s);
    var ls, p := Leaves(Plug(fs, s)), |LeftOf(fs)|;
    assert ls[..p] == LeftOf(fs);
    var a, c := ContentsAround(fs, s, start);
    SelectNone(a, start, stop);
  }
}
