/** Nodes as records of integers in a grid, and when a grid holds a tree. */
module BTreeStore {
  import opened Lexicon
  import opened BTree
  import TokenParser

  datatype Node = Node(id: int, leaf: bool, keys: seq<int>, children: seq<int>, next: int)

  // ----- records -----

  /** Keys and children interleaved, a missing child as -1. */
  function Pairs(keys: seq<int>, children: seq<int>, i: nat := 0): (r: seq<int>)
    requires i <= |keys|
    ensures |r| == 2 * (|keys| - i)
    decreases |keys| - i
  {
    if i == |keys| then [] else [keys[i], if i < |children| then children[i] else -1] + Pairs(keys, children, i + 1)
  }

  function Encode(n: Node): seq<int> {
    [n.id, if n.leaf then 1 else 0, |n.keys|, n.next] + Pairs(n.keys, n.children)
    + (if |n.children| > |n.keys| then [n.children[|n.children| - 1]] else [])
  }

  function Evens(s: seq<int>): seq<int> {
    if s == [] then [] else [s[0]] + Evens(s[if |s| >= 2 then 2 else 1..])
  }

  function Odds(s: seq<int>): seq<int> {
    if |s| < 2 then [] else [s[1]] + Odds(s[2..])
  }

  /** The record parser: even positions are keys, odd ones children; a trailing
      odd value is taken for a key and for the last child. */
  function Parse(nums: seq<int>): Option<Node> {
    if |nums| < 4 then None
    else
      var data := nums[4..];
      Some(Node(nums[0], nums[1] == 1, Evens(data),
                Odds(data) + (if |data| % 2 == 1 then [data[|data| - 1]] else []), nums[3]))
  }

  /** What a node reads back as. */
  function Parsed(n: Node): Node
    requires |n.children| == |n.keys| || |n.children| == |n.keys| + 1
  {
    if |n.children| == |n.keys| then n else n.(keys := n.keys + [n.children[|n.keys|]])
  }

  lemma {:induction false} PairsSplit(keys: seq<int>, children: seq<int>, i: nat, tail: seq<int>)
    requires i <= |keys| <= |children| && |tail| <= 1
    ensures Evens(Pairs(keys, children, i) + tail) == keys[i..] + tail
    ensures Odds(Pairs(keys, children, i) + tail) == children[i..|keys|]
    decreases |keys| - i
  {
    var p := Pairs(keys, children, i) + tail;
    if i == |keys| {
      assert p == tail;
      if tail != [] {
        assert tail[1..] == [];
      }
    } else {
      assert p[2..] == Pairs(keys, children, i + 1) + tail;
      PairsSplit(keys, children, i + 1, tail);
    }
  }

  /** Writing and reading a node: leaves come back as written, an internal node
      with one child more than keys comes back with that child's id as a key. */
  lemma ParseEncode(n: Node)
    requires |n.children| == |n.keys| || |n.children| == |n.keys| + 1
    ensures Parse(Encode(n)) == Some(Parsed(n))
  {
    hide Pairs, Evens, Odds;
    var tail := if |n.children| > |n.keys| then [n.children[|n.children| - 1]] else [];
    var data := Pairs(n.keys, n.children) + tail;
    assert Encode(n)[4..] == data;
    PairsSplit(n.keys, n.children, 0, tail);
    assert n.keys[0..] == n.keys && n.keys + [] == n.keys;
    assert n.children == n.children[0..|n.keys|] + tail;
  }

  /** The node's record, token by token. */
  function NodeTokens(n: Node): seq<Token> {
    TokenParser.EncodeAll(Encode(n)) + [RECORD]
  }

  /** From tokens to node and back: what the record parser finds in a written node. */
  lemma NodeRoundTrip(n: Node)
    requires |n.children| == |n.keys| || |n.children| == |n.keys| + 1
    ensures Parse(TokenParser.NumbersIn(NodeTokens(n))) == Some(Parsed(n))
  {
    hide Encode, Parse, TokenParser.NumbersIn;
    TokenParser.RecordOfNumbers(Encode(n));
    ParseEncode(n);
  }

  // ----- trees in a grid -----

  type Grid = map<int, seq<int>>

  function ReadNode(g: Grid, id: int): Option<Node> {
    if id in g then Parse(g[id]) else None
  }

  function KidIds(ts: seq<Tree>): (ids: seq<int>)
    ensures |ids| == |ts|
    ensures forall i :: 0 <= i < |ts| ==> ids[i] == ts[i].id
  {
    seq(|ts|, i requires 0 <= i < |ts| => ts[i].id)
  }

  /** A tree's node as the record parser returns it. */
  function NodeOf(t: Tree): Node {
    if t.Leaf? then Node(t.id, true, t.keys, t.rids, t.next) else Node(t.id, false, t.keys, KidIds(t.kids), -1)
  }

  ghost predicate Stores(g: Grid, t: Tree)
    decreases t
  {
    && ReadNode(g, t.id) == Some(NodeOf(t))
    && (t.Inner? ==> forall i :: 0 <= i < |t.kids| ==> Stores(g, t.kids[i]))
  }

  function Ids(t: Tree): set<int>
    decreases t, 1
  {
    {t.id} + if t.Inner? then IdsAll(t.kids) else {}
  }

  function IdsAll(ts: seq<Tree>): set<int>
    decreases ts, 0
  {
    if ts == [] then {} else Ids(ts[0]) + IdsAll(ts[1..])
  }

  /** No two nodes of the tree share an id. */
  ghost predicate Apart(t: Tree)
    decreases t, 1
  {
    t.Inner? ==> t.id !in IdsAll(t.kids) && ApartAll(t.kids)
  }

  ghost predicate ApartAll(ts: seq<Tree>)
    decreases ts, 0
  {
    ts != [] ==> Apart(ts[0]) && Ids(ts[0]) !! IdsAll(ts[1..]) && ApartAll(ts[1..])
  }

  lemma {:induction false} IdsAppend(a: seq<Tree>, b: seq<Tree>)
    ensures IdsAll(a + b) == IdsAll(a) + IdsAll(b)
    decreases |a|
  {
    if a == [] {
      assert a + b == b;
    } else {
      assert (a + b)[1..] == a[1..] + b;
      IdsAppend(a[1..], b);
    }
  }

  lemma {:induction false} ApartAppend(a: seq<Tree>, b: seq<Tree>)
    ensures ApartAll(a + b) <==> ApartAll(a) && ApartAll(b) && IdsAll(a) !! IdsAll(b)
    decreases |a|
  {
    if a == [] {
      assert a + b == b;
    } else {
      assert (a + b)[1..] == a[1..] + b;
      ApartAppend(a[1..], b);
      IdsAppend(a[1..], b);
    }
  }

  lemma IdsOne(t: Tree)
    ensures IdsAll([t]) == Ids(t) && (ApartAll([t]) <==> Apart(t))
  {
    assert [t][1..] == [];
  }

  lemma {:induction false} IdOfKid(ts: seq<Tree>, i: nat)
    requires i < |ts|
    ensures Ids(ts[i]) <= IdsAll(ts)
  {
    assert ts == ts[..i] + ([ts[i]] + ts[i + 1..]);
    IdsAppend(ts[..i], [ts[i]] + ts[i + 1..]);
    IdsAppend([ts[i]], ts[i + 1..]);
    IdsOne(ts[i]);
  }

  /** Writes outside a tree's ids leave it stored. */
  lemma {:induction false} StoresFrame(g: Grid, g': Grid, t: Tree)
    requires Stores(g, t) && forall id :: id in Ids(t) ==> ReadNode(g', id) == ReadNode(g, id)
    ensures Stores(g', t)
    decreases t
  {
    if t.Inner? {
      forall i | 0 <= i < |t.kids| ensures Stores(g', t.kids[i]) {
        IdOfKid(t.kids, i);
        StoresFrame(g, g', t.kids[i]);
      }
    }
  }

  // ----- the path around a hole -----

  function SideIds(f: Frame): set<int>
    requires FrameOk(f)
  {
    {f.id} + IdsAll(LeftKids(f)) + IdsAll(RightKids(f))
  }

  function PathIds(fs: seq<Frame>): set<int>
    requires FramesOk(fs)
  {
    if fs == [] then {} else PathIds(fs[..|fs| - 1]) + SideIds(fs[|fs| - 1])
  }

  /** The frame's own record, with hole as its child i, and its other children. */
  ghost predicate FrameStored(g: Grid, f: Frame, hole: int)
    requires FrameOk(f)
  {
    && ReadNode(g, f.id) == Some(Node(f.id, false, f.keys, KidIds(f.kids)[f.i := hole], -1))
    && (forall j :: 0 <= j < |f.kids| && j != f.i ==> Stores(g, f.kids[j]))
  }

  ghost predicate PathStored(g: Grid, fs: seq<Frame>, hole: int)
    requires FramesOk(fs)
  {
    if fs == [] then true
    else FrameStored(g, fs[|fs| - 1], hole) && PathStored(g, fs[..|fs| - 1], fs[|fs| - 1].id)
  }

  lemma FillStored(g: Grid, f: Frame, s: Tree)
    requires FrameOk(f)
    ensures Stores(g, Fill(f, s)) <==> FrameStored(g, f, s.id) && Stores(g, s)
  {
    var kids := f.kids[f.i := s];
    assert KidIds(kids) == KidIds(f.kids)[f.i := s.id];
    if Stores(g, Fill(f, s)) {
      assert kids[f.i] == s;
      forall j | 0 <= j < |f.kids| && j != f.i ensures Stores(g, f.kids[j]) {
        assert kids[j] == f.kids[j];
      }
    }
    if FrameStored(g, f, s.id) && Stores(g, s) {
      forall j | 0 <= j < |kids| ensures Stores(g, kids[j]) {
        assert kids[j] == if j == f.i then s else f.kids[j];
      }
    }
  }

  /** A tree is stored when its path is and what hangs at its end is. */
  lemma {:induction false} PlugStored(g: Grid, fs: seq<Frame>, s: Tree)
    requires FramesOk(fs)
    ensures Stores(g, Plug(fs, s)) <==> PathStored(g, fs, s.id) && Stores(g, s)
    decreases |fs|
  {
    hide Stores, FrameStored;
    if fs != [] {
      var f := fs[|fs| - 1];
      FillStored(g, f, s);
      PlugStored(g, fs[..|fs| - 1], Fill(f, s));
    }
  }

  lemma FillIds(f: Frame, s: Tree)
    requires FrameOk(f)
    ensures Ids(Fill(f, s)) == SideIds(f) + Ids(s)
    ensures Apart(Fill(f, s)) <==>
              Apart(s) && ApartAll(LeftKids(f)) && ApartAll(RightKids(f)) && f.id !in Ids(s) && SideApart(f)
              && Ids(s) !! SideIds(f)
  {
    hide Ids, Apart;
    var a, b := LeftKids(f), RightKids(f);
    var kids := f.kids[f.i := s];
    assert kids == a + [s] + b;
    IdsAppend(a + [s], b);
    IdsAppend(a, [s]);
    IdsOne(s);
    ApartAppend(a + [s], b);
    ApartAppend(a, [s]);
    FillUnfold(f, s);
  }

  ghost predicate SideApart(f: Frame)
    requires FrameOk(f)
  {
    IdsAll(LeftKids(f)) !! IdsAll(RightKids(f)) && f.id !in IdsAll(LeftKids(f)) && f.id !in IdsAll(RightKids(f))
  }

  lemma FillUnfold(f: Frame, s: Tree)
    requires FrameOk(f)
    ensures Ids(Fill(f, s)) == {f.id} + IdsAll(f.kids[f.i := s])
    ensures Apart(Fill(f, s)) <==> f.id !in IdsAll(f.kids[f.i := s]) && ApartAll(f.kids[f.i := s])
  {
  }

  /** All the ids of a plugged tree are on the path's side or in the subtree, and
      distinctness does not depend on the subtree beyond its ids. */
  lemma {:induction false} PlugIds(fs: seq<Frame>, s: Tree)
    requires FramesOk(fs)
    ensures Ids(Plug(fs, s)) == PathIds(fs) + Ids(s)
    ensures Apart(Plug(fs, s)) <==> Apart(s) && PathApart(fs) && PathIds(fs) !! Ids(s)
    decreases |fs|
  {
    hide Ids, Apart, IdsAll, ApartAll, Fill;
    if fs != [] {
      var f := fs[|fs| - 1];
      FillIds(f, s);
      PlugIds(fs[..|fs| - 1], Fill(f, s));
    }
  }

  ghost predicate PathApart(fs: seq<Frame>)
    requires FramesOk(fs)
  {
    if fs == [] then true
    else
      var f := fs[|fs| - 1];
      var up := fs[..|fs| - 1];
      PathApart(up) && SideApart(f) && ApartAll(LeftKids(f)) && ApartAll(RightKids(f)) && PathIds(up) !! SideIds(f)
  }

  lemma {:induction false} PathFrame(g: Grid, g': Grid, fs: seq<Frame>, hole: int)
    requires FramesOk(fs) && PathStored(g, fs, hole)
    requires forall id :: id in PathIds(fs) ==> ReadNode(g', id) == ReadNode(g, id)
    ensures PathStored(g', fs, hole)
    decreases |fs|
  {
    hide Stores, NodeOf;
    if fs != [] {
      var f := fs[|fs| - 1];
      PathFrame(g, g', fs[..|fs| - 1], f.id);
      forall j | 0 <= j < |f.kids| && j != f.i ensures Stores(g', f.kids[j]) {
        if j < f.i {
          IdOfKid(LeftKids(f), j);
        } else {
          IdOfKid(RightKids(f), j - f.i - 1);
        }
        StoresFrame(g, g', f.kids[j]);
      }
    }
  }
}
