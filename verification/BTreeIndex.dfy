/** The B+tree index object of python/griddb_index.py: nodes are records in a
    grid, updated node by node. Its contents are a sorted map from keys to
    record ids. */
module BTreeIndexes {
  import opened Lexicon
  import opened BTree
  import opened BTreeContents
  import opened BTreeStore
  import opened BTreeSteps

  class BTreeIndex {
    var grid: Grid
    var rootId: int
    var nextId: int
    ghost var tree: Option<Tree>

    ghost predicate Valid()
      reads this
    {
      && 0 <= nextId && (rootId < 0 <==> tree.None?)
      && (tree.Some? ==> Held(grid, tree.value, nextId) && tree.value.id == rootId)
    }

    /** The keys and record ids, in key order; a deleted key has id -1. */
    ghost function Entries(): Entries
      requires Valid()
      reads this
    {
      if tree.None? then [] else Contents(tree.value)
    }

    constructor ()
      ensures Valid() && Entries() == []
    {
      grid, rootId, nextId, tree := map[], -1, 0, None;
    }

    method WriteNode(n: Node)
      modifies this`grid, this`nextId
      ensures grid == old(grid)[n.id := Encode(n)]
      ensures nextId == if n.id >= old(nextId) then n.id + 1 else old(nextId)
    {
      grid := grid[n.id := Encode(n)];
      if n.id >= nextId {
        nextId := n.id + 1;
      }
    }

    method AllocId() returns (id: int)
      modifies this`nextId
      ensures id == old(nextId) && nextId == id + 1
    {
      id := nextId;
      nextId := nextId + 1;
    }

    /** From the root to the leaf that key belongs to, with the nodes passed. */
    method FindLeaf(key: int) returns (leaf: Node, ancestors: seq<Node>, ghost fs: seq<Frame>, ghost s: Tree)
      requires Valid() && tree.Some?
      ensures FramesOk(fs) && Plug(fs, s) == tree.value && Routed(fs, key) && s.Leaf? && leaf == NodeOf(s)
      ensures AncestorsOf(ancestors, fs) && Aligned(fs, s.id)
    {
      hide Good, Stores, Apart, Ids, Plug, Aligned, AncestorsOf, Routed, ReadNode;
      fs, s, ancestors := [], tree.value, [];
      AtRoot(s, key);
      RootStored(grid, s, nextId);
      var node := ReadNode(grid, rootId).value;
      while !node.leaf
        invariant FramesOk(fs) && Plug(fs, s) == tree.value && Routed(fs, key)
        invariant Good(s) && Stores(grid, s) && node == NodeOf(s)
        invariant AncestorsOf(ancestors, fs) && Aligned(fs, s.id)
        decreases s
      {
        InnerFacts(grid, s);
        var i := ChildIndex(node.keys, |node.children|, key);
        StepsDown(grid, fs, s, ancestors, i, key);
        ancestors := ancestors + [node];
        node := ReadNode(grid, node.children[i]).value;
        fs, s := fs + [Frame(s.id, s.keys, s.kids, i)], s.kids[i];
      }
      leaf := node;
    }

    /** The record id under a key, -1 when it was deleted, None when absent. */
    method Get(key: int) returns (r: Option<int>)
      requires Valid()
      ensures r == Lookup(Entries(), key)
    {
      if rootId < 0 {
        return None;
      }
      var leaf, ancestors, fs, s := FindLeaf(key);
      hide Good, Stores, Apart, Ids, Plug, Contents, Lookup;
      ghost var a, c := ContentsAround(fs, s, key);
      LookupAround(a, Zip(s.keys, s.rids), c, key);
      var i := FindKey(leaf.keys, leaf.children, key);
      r := if i < 0 then None else Some(leaf.children[i]);
    }

    /** Marks a present key's record id as -1. */
    method SoftDelete(key: int) returns (found: bool)
      requires Valid()
      modifies this
      ensures Valid()
      ensures found <==> Lookup(old(Entries()), key).Some?
      ensures Entries() == if found then SeqPut(old(Entries()), key, -1) else old(Entries())
    {
      if rootId < 0 {
        return false;
      }
      var leaf, ancestors, fs, s := FindLeaf(key);
      hide Good, Stores, Apart, Ids, Plug, Contents, Lookup, Encode, SeqPut, LeafKeys, LeafRids;
      ghost var a, c := ContentsAround(fs, s, key);
      LookupAround(a, Zip(s.keys, s.rids), c, key);
      var i := FindKey(leaf.keys, leaf.children, key);
      if i < 0 {
        return false;
      }
      Overwritten(s, key, -1, i);
      UpdateLeaf(leaf.(children := leaf.children[i := -1]), fs, s, Leaf(s.id, s.keys, s.rids[i := -1], s.next), key,
          -1);
      found := true;
    }

    /** Writes back a leaf whose entries changed at key only. */
    method UpdateLeaf(node: Node, ghost fs: seq<Frame>, ghost s: Tree, ghost s': Tree, ghost key: int, ghost v: int)
      requires Valid() && tree.Some? && FramesOk(fs) && Plug(fs, s) == tree.value && Routed(fs, key)
      requires SameLeaf(s, s', key) && node == NodeOf(s') && |s.keys| == |s.rids|
      requires Zip(s'.keys, s'.rids) == SeqPut(Zip(s.keys, s.rids), key, v)
      modifies this
      ensures Valid() && Entries() == SeqPut(old(Entries()), key, v)
    {
      hide Good, Stores, Apart, Ids, Plug, Contents, Encode, SeqPut, Zip, Chained;
      LeafRewritten(grid, fs, s, s', key, v, nextId);
      SmallId(grid, fs, s, nextId);
      WriteNode(node);
      tree := Some(Plug(fs, s'));
    }

    /** The live record ids with start <= key < stop, in key order: down to the
        leaf of start, then along the chain. */
    method RangeScan(start: int, stop: int) returns (results: seq<int>)
      requires Valid()
      ensures results == Select(Entries(), start, stop)
    {
      hide Good, Stores, Apart, Ids, Plug, LeafOk, EntriesOf, Select, Zip;
      if rootId < 0 {
        SelectNone([], start, stop);
        return [];
      }
      var node, ancestors, fs, s := FindLeaf(start);
      ghost var ls := Leaves(tree.value);
      ghost var p := |LeftOf(fs)|;
      GoodSorted(tree.value);
      ScanStarts(fs, s, start, stop);
      results := [];
      while true
        invariant LeavesOk(ls) && 0 <= p < |ls| && node == NodeOf(ls[p])
        invariant results == Select(EntriesOf(ls[..p]), start, stop)
        decreases |ls| - p
      {
        SelectSplit(ls, p, start, stop);
        var out, over := ScanLeaf(node.keys, node.children, start, stop);
        results := results + out;
        if over {
          SelectStops(ls, p, start, stop);
          return;
        }
        ChainAt(ls, p);
        if p + 1 < |ls| {
          LeafStored(grid, tree.value, p + 1);
        } else {
          assert ls[..p + 1] == ls;
        }
        if node.next < 0 {
          return;
        }
        node := ReadNode(grid, node.next).value;
        p := p + 1;
      }
    }

    /** Inserts a key or replaces its record id. */
    method Put(key: int, rid: int)
      requires Valid()
      modifies this
      ensures Valid() && Entries() == SeqPut(old(Entries()), key, rid)
    {
      if rootId < 0 {
        PutFirst(key, rid);
        return;
      }
      var leaf, ancestors, fs, s := FindLeaf(key);
      PutIntoLeaf(leaf, key, rid, ancestors, fs, s);
    }

    method PutFirst(key: int, rid: int)
      requires Valid() && rootId < 0
      modifies this
      ensures Valid() && Entries() == [(key, rid)]
    {
      hide Encode, Parse;
      var id := AllocId();
      var root := Node(id, true, [key], [rid], -1);
      ghost var t := Leaf(id, [key], [rid], -1);
      WriteReads(grid, root);
      WriteNode(root);
      rootId := id;
      tree := Some(t);
      EntriesOne(t);
    }

    method PutIntoLeaf(leaf: Node, key: int, rid: int, ancestors: seq<Node>, ghost fs: seq<Frame>, ghost s: Tree)
      requires Valid() && tree.Some? && FramesOk(fs) && Plug(fs, s) == tree.value && Routed(fs, key)
      requires s.Leaf? && leaf == NodeOf(s) && AncestorsOf(ancestors, fs) && Aligned(fs, s.id)
      modifies this
      ensures Valid() && Entries() == SeqPut(old(Entries()), key, rid)
    {
      hide Good, Stores, Apart, Ids, Plug, Contents, Encode, SeqPut, Zip, Chained, LeafOk, Lookup, KeySet, Rank;
      LeafAtEnd(grid, fs, s, nextId);
      LeafPut(s.keys, s.rids, key, rid);
      ghost var s' := Leaf(s.id, LeafKeys(s.keys, key), LeafRids(s.keys, s.rids, key, rid), s.next);
      var i := FindKey(leaf.keys, leaf.children, key);
      if i >= 0 {
        OverwrittenAt(s, key, rid, i);
        UpdateLeaf(leaf.(children := leaf.children[i := rid]), fs, s, s', key, rid);
        return;
      }
      var at := InsertionPoint(leaf.keys, key);
      var grown := leaf.(keys := leaf.keys[..at] + [key] + leaf.keys[at..],
                         children := leaf.children[..at] + [rid] + leaf.children[at..]);
      assert grown == NodeOf(s');
      if |grown.keys| <= MAX_KEYS {
        GrownLeaf(s, s', key);
        UpdateLeaf(grown, fs, s, s', key, rid);
      } else {
        SplitLeaf(grown, key, rid, ancestors, fs, s);
      }
    }

    /** The leaf is written overfull, then halved; its upper half takes a new
        id and its old right neighbour, and its first key goes to the parent. */
    method SplitLeaf(leaf: Node, key: int, ghost rid: int, ancestors: seq<Node>, ghost fs: seq<Frame>, ghost s: Tree)
      requires Valid() && tree.Some? && FramesOk(fs) && Plug(fs, s) == tree.value && Routed(fs, key)
      requires s.Leaf? && LeafOk(s) && key !in s.keys && |s.keys| == MAX_KEYS && AncestorsOf(ancestors, fs)
               && Aligned(fs, s.id)
      requires |LeafKeys(s.keys, key)| == |LeafRids(s.keys, s.rids, key, rid)| == MAX_KEYS + 1
      requires leaf == Node(s.id, true, LeafKeys(s.keys, key), LeafRids(s.keys, s.rids, key, rid), s.next)
      modifies this
      ensures Valid() && Entries() == SeqPut(old(Entries()), key, rid)
    {
      hide Good, Stores, Apart, Ids, Plug, Contents, Encode, SeqPut, Zip, Chained, LeafOk, KeySet, Rank, LeafKeys,
           LeafRids, PathStored, PathIds, PathApart, SplitOf, Climb;
      ghost var t, next := tree.value, nextId;
      ghost var l := LowerLeaf(s, leaf.keys, leaf.children, nextId);
      ghost var r := UpperLeaf(s, leaf.keys, leaf.children, nextId);
      var x := leaf.keys[MID];
      SmallId(grid, fs, s, nextId);
      LeafHalves(fs, s, key, rid, next);
      ghost var g := grid;
      WriteNode(leaf);
      var id := AllocId();
      WriteNode(Node(id, true, leaf.keys[MID..], leaf.children[MID..], leaf.next));
      WriteNode(Node(leaf.id, true, leaf.keys[..MID], leaf.children[..MID], id));
      LeafSplitStored(g, grid, fs, s, leaf, l, r, next);
      RootOf(fs, s);
      PathSizes(fs, s);
      Promote(leaf.id, x, id, ancestors, fs, l, r);
      tree := Some(Climb(fs, l, x, r, next + 1).0);
      SplitHolds(g, grid, fs, s, l, x, r, key, rid, next);
    }

    /** Hangs the new right node beside the left one: under a new root, or in
        the parent, which may split in turn. */
    method Promote(left: int, x: int, right: int, ancestors: seq<Node>, ghost fs: seq<Frame>, ghost l: Tree,
        ghost r: Tree)
      requires AncestorsOf(ancestors, fs) && Midway(grid, fs, l, r, nextId) && Aligned(fs, l.id) && Sized(fs)
      requires left == l.id && right == r.id && rootId == (if fs == [] then l.id else fs[0].id)
      modifies this`grid, this`nextId, this`rootId
      ensures var c := Climb(fs, l, x, r, old(nextId));
              Stores(grid, c.0) && nextId == c.1 && rootId == c.0.id
      decreases |ancestors|, 1
    {
      if ancestors == [] {
        hide Encode, Parse;
        var id := AllocId();
        var root := Node(id, false, [x], [left, right], -1);
        WriteReads(grid, root);
        ghost var g := grid;
        WriteNode(root);
        rootId := id;
        RootStays(g, grid, l, x, r, id);
      } else {
        InsertIntoInternal(ancestors[|ancestors| - 1], x, left, right, ancestors[..|ancestors| - 1], fs, l, r);
      }
    }

    method InsertIntoInternal(parent: Node, x: int, left: int, right: int, ancestors: seq<Node>, ghost fs: seq<Frame>,
        ghost l: Tree, ghost r: Tree)
      requires fs != [] && FramesOk(fs) && parent == FrameNode(fs[|fs| - 1]) && AncestorsOf(ancestors, fs[..|fs| - 1])
      requires Midway(grid, fs, l, r, nextId) && Aligned(fs, l.id) && Sized(fs)
      requires left == l.id && right == r.id && rootId == fs[0].id
      modifies this`grid, this`nextId, this`rootId
      ensures var c := Climb(fs, l, x, r, old(nextId));
              Stores(grid, c.0) && nextId == c.1 && rootId == c.0.id
      decreases |ancestors|, 2
    {
      hide Stores, Plug, Encode, Parse, Widen, Midway, Aligned, Sized, AncestorsOf, KidIds, Climb, NodeOf,
           LowerHalf, UpperHalf;
      ghost var f := fs[|fs| - 1];
      ghost var up := fs[..|fs| - 1];
      ghost var w := Widen(f, l, x, r);
      BeforeInsert(grid, fs, l, r, nextId);
      var pos := ChildPosition(parent, left, x);
      var node := parent.(keys := parent.keys[..pos] + [x] + parent.keys[pos..],
                          children := parent.children[..pos + 1] + [right] + parent.children[pos + 1..]);
      assert pos == f.i;
      WidenNode(f, l, x, r);
      InnerNode(w);
      ghost var g, next := grid, nextId;
      WriteNode(node);
      if |node.keys| > MAX_KEYS {
        var id := AllocId();
        WriteNode(Node(id, false, node.keys[MID + 1..], node.children[MID + 1..], -1));
        WriteNode(Node(node.id, false, node.keys[..MID], node.children[..MID + 1], -1));
        HalvesStored(g, grid, fs, l, x, r, next);
        HalfIds(w, id);
        ghost var lower, upper := LowerHalf(w), UpperHalf(w, id);
        ghost var c := Climb(up, lower, node.keys[MID], upper, nextId);
        assert Climb(fs, l, x, r, next) == c;
        Promote(node.id, node.keys[MID], id, ancestors, up, lower, upper);
        assert Stores(grid, c.0) && nextId == c.1 && rootId == c.0.id;
      } else {
        WidenedStored(g, grid, fs, l, x, r, next);
      }
    }
  }
}
