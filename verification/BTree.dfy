/** The shape of the B+tree of python/griddb_index.py and what an insertion does
    to it, as values. Internal nodes carry their keys as the record parser
    returns them: one per child, the last of them without meaning. */
module BTree {

  const MAX_KEYS := 4

  datatype Tree =
    | Leaf(id: int, keys: seq<int>, rids: seq<int>, next: int)
    | Inner(id: int, keys: seq<int>, kids: seq<Tree>)

  // ----- contents -----

  type Entries = seq<(int, int)>

  function Zip(keys: seq<int>, rids: seq<int>): (e: Entries)
    requires |keys| == |rids|
    ensures |e| == |keys|
  {
    seq(|keys|, i requires 0 <= i < |keys| => (keys[i], rids[i]))
  }

  /** The leaves from left to right. */
  function Leaves(t: Tree): (ls: seq<Tree>)
    ensures forall l :: l in ls ==> l.Leaf?
    decreases t, 1
  {
    if t.Leaf? then [t] else LeavesAll(t.kids)
  }

  function LeavesAll(ts: seq<Tree>): (ls: seq<Tree>)
    ensures forall l :: l in ls ==> l.Leaf?
    decreases ts, 0
  {
    if ts == [] then [] else Leaves(ts[0]) + LeavesAll(ts[1..])
  }

  function KeySet(ls: seq<Tree>): set<int> {
    set l, k | l in ls && k in l.keys :: k
  }

  predicate LeafOk(l: Tree) {
    && l.Leaf? && |l.keys| == |l.rids| && 1 <= |l.keys| <= MAX_KEYS
    && forall a, b :: 0 <= a < b < |l.keys| ==> l.keys[a] < l.keys[b]
  }

  predicate Below(ks: set<int>, x: int) {
    forall k :: k in ks ==> k < x
  }

  predicate AtLeast(ks: set<int>, x: int) {
    forall k :: k in ks ==> x <= k
  }

  function Height(t: Tree): nat
    decreases t
  {
    if t.Leaf? || t.kids == [] then 0 else 1 + Height(t.kids[0])
  }

  /** The first |kids| - 1 keys separate the children. */
  ghost predicate Separated(keys: seq<int>, kids: seq<Tree>)
    requires |keys| == |kids|
  {
    && (forall a, b :: 0 <= a < b < |kids| - 1 ==> keys[a] < keys[b])
    && (forall i :: 0 <= i < |kids| - 1 ==> Below(KeySet(Leaves(kids[i])), keys[i]))
    && (forall i :: 1 <= i < |kids| ==> AtLeast(KeySet(Leaves(kids[i])), keys[i - 1]))
  }

  /** Balanced, ordered, with nodes of bounded size. */
  ghost predicate Good(t: Tree)
    decreases t
  {
    match t
    case Leaf(_, _, _, _) => LeafOk(t)
    case Inner(_, keys, kids) =>
      && |keys| == |kids| && 2 <= |kids| <= MAX_KEYS
      && (forall i :: 0 <= i < |kids| ==> Good(kids[i]) && Height(kids[i]) == Height(kids[0]))
      && Separated(keys, kids)
  }

  // ----- leaves of sequences of trees -----

  lemma {:induction false} LeavesAppend(a: seq<Tree>, b: seq<Tree>)
    ensures LeavesAll(a + b) == LeavesAll(a) + LeavesAll(b)
    decreases |a|
  {
    if a == [] {
      assert a + b == b;
    } else {
      assert (a + b)[1..] == a[1..] + b;
      LeavesAppend(a[1..], b);
    }
  }

  lemma LeavesOne(t: Tree)
    ensures LeavesAll([t]) == Leaves(t)
  {
    assert [t][1..] == [];
  }

  lemma Around(kids: seq<Tree>, i: nat)
    requires i < |kids|
    ensures kids == kids[..i] + [kids[i]] + kids[i + 1..]
  {
  }

  /** Around child i: what lies left of it and right of it. */
  lemma LeavesAround(kids: seq<Tree>, i: nat)
    requires i < |kids|
    ensures LeavesAll(kids) == LeavesAll(kids[..i]) + Leaves(kids[i]) + LeavesAll(kids[i + 1..])
  {
    hide Leaves, LeavesAll;
    var a, b, c := kids[..i], [kids[i]], kids[i + 1..];
    Around(kids, i);
    LeavesAppend(a + b, c);
    LeavesAppend(a, b);
    LeavesOne(kids[i]);
  }

  lemma KeySetAppend(a: seq<Tree>, b: seq<Tree>)
    ensures KeySet(a + b) == KeySet(a) + KeySet(b)
  {
    assert forall l :: l in a + b <==> l in a || l in b;
  }

  lemma {:induction false} KeyInSome(kids: seq<Tree>, k: int)
    requires k in KeySet(LeavesAll(kids))
    ensures exists i :: 0 <= i < |kids| && k in KeySet(Leaves(kids[i]))
    decreases |kids|
  {
    if kids != [] {
      KeySetAppend(Leaves(kids[0]), LeavesAll(kids[1..]));
      if k !in KeySet(Leaves(kids[0])) {
        KeyInSome(kids[1..], k);
        var j :| 0 <= j < |kids[1..]| && k in KeySet(Leaves(kids[1..][j]));
        assert kids[1..][j] == kids[j + 1];
      }
    }
  }

  lemma KeyFromKid(kids: seq<Tree>, i: nat, k: int)
    requires i < |kids| && k in KeySet(Leaves(kids[i]))
    ensures k in KeySet(LeavesAll(kids))
  {
    LeavesAround(kids, i);
    KeySetAppend(LeavesAll(kids[..i]), Leaves(kids[i]));
    KeySetAppend(LeavesAll(kids[..i]) + Leaves(kids[i]), LeavesAll(kids[i + 1..]));
  }

  lemma {:induction false} SomeKey(t: Tree) returns (k: int)
    requires Good(t)
    ensures k in KeySet(Leaves(t))
    decreases t
  {
    if t.Leaf? {
      k := t.keys[0];
      assert t in Leaves(t) && k in t.keys;
    } else {
      k := SomeKey(t.kids[0]);
      KeyFromKid(t.kids, 0, k);
    }
  }

  // ----- paths -----

  /** An internal node with a hole at child i; kids[i] is ignored. */
  datatype Frame = Frame(id: int, keys: seq<int>, kids: seq<Tree>, i: nat)

  predicate FrameOk(f: Frame) {
    |f.keys| == |f.kids| && f.i < |f.kids|
  }

  function Fill(f: Frame, s: Tree): Tree
    requires FrameOk(f)
  {
    Inner(f.id, f.keys, f.kids[f.i := s])
  }

  function LeftKids(f: Frame): seq<Tree>
    requires FrameOk(f)
  {
    f.kids[..f.i]
  }

  function RightKids(f: Frame): seq<Tree>
    requires FrameOk(f)
  {
    f.kids[f.i + 1..]
  }

  predicate FramesOk(fs: seq<Frame>) {
    forall f :: f in fs ==> FrameOk(f)
  }

  /** The whole tree, with s at the end of the path. */
  function Plug(fs: seq<Frame>, s: Tree): Tree
    requires FramesOk(fs)
  {
    if fs == [] then s else Plug(fs[..|fs| - 1], Fill(fs[|fs| - 1], s))
  }

  function LeftOf(fs: seq<Frame>): seq<Tree>
    requires FramesOk(fs)
  {
    if fs == [] then []
    else LeftOf(fs[..|fs| - 1]) + LeavesAll(LeftKids(fs[|fs| - 1]))
  }

  function RightOf(fs: seq<Frame>): seq<Tree>
    requires FramesOk(fs)
  {
    if fs == [] then []
    else LeavesAll(RightKids(fs[|fs| - 1])) + RightOf(fs[..|fs| - 1])
  }

  /** At every node of the path, the separators lead key to the hole. */
  predicate Routes(f: Frame, key: int)
    requires FrameOk(f)
  {
    (f.i > 0 ==> f.keys[f.i - 1] <= key) && (f.i < |f.kids| - 1 ==> key < f.keys[f.i])
  }

  predicate Routed(fs: seq<Frame>, key: int)
    requires FramesOk(fs)
  {
    forall f :: f in fs ==> Routes(f, key)
  }

  lemma FillLeaves(f: Frame, s: Tree)
    requires FrameOk(f)
    ensures Leaves(Fill(f, s)) == LeavesAll(LeftKids(f)) + Leaves(s) + LeavesAll(RightKids(f))
  {
    var kids := f.kids[f.i := s];
    LeavesAround(kids, f.i);
    assert kids[..f.i] == f.kids[..f.i] && kids[f.i + 1..] == f.kids[f.i + 1..];
  }

  lemma Regroup(a: seq<Tree>, b: seq<Tree>, x: seq<Tree>, c: seq<Tree>, d: seq<Tree>)
    ensures a + (b + x + c) + d == (a + b) + x + (c + d)
  {
  }

  lemma {:induction false} PlugLeaves(fs: seq<Frame>, s: Tree)
    requires FramesOk(fs)
    ensures Leaves(Plug(fs, s)) == LeftOf(fs) + Leaves(s) + RightOf(fs)
    decreases |fs|
  {
    hide Leaves, LeavesAll, Fill;
    if fs != [] {
      var f := fs[|fs| - 1];
      var up := fs[..|fs| - 1];
      PlugLeaves(up, Fill(f, s));
      FillLeaves(f, s);
      Regroup(LeftOf(up), LeavesAll(LeftKids(f)), Leaves(s), LeavesAll(RightKids(f)), RightOf(up));
    }
  }

  // ----- replacing a subtree -----

  /** s' may stand where s stood, for an insertion of key. */
  ghost predicate Replaces(s: Tree, s': Tree, key: int) {
    Good(s') && Height(s') == Height(s) && KeySet(Leaves(s')) <= KeySet(Leaves(s)) + {key}
  }

  lemma FillFacts(f: Frame, s: Tree)
    requires FrameOk(f) && Good(Fill(f, s))
    ensures Good(s) && Height(Fill(f, s)) == 1 + Height(s) && 2 <= |f.kids| <= MAX_KEYS
    ensures forall j :: 0 <= j < |f.kids| && j != f.i ==> Good(f.kids[j]) && Height(f.kids[j]) == Height(s)
    ensures forall a, b :: 0 <= a < b < |f.kids| - 1 ==> f.keys[a] < f.keys[b]
    ensures forall j :: 0 <= j < |f.kids| - 1 && j != f.i ==> Below(KeySet(Leaves(f.kids[j])), f.keys[j])
    ensures forall j :: 1 <= j < |f.kids| && j != f.i ==> AtLeast(KeySet(Leaves(f.kids[j])), f.keys[j - 1])
    ensures f.i < |f.kids| - 1 ==> Below(KeySet(Leaves(s)), f.keys[f.i])
    ensures f.i >= 1 ==> AtLeast(KeySet(Leaves(s)), f.keys[f.i - 1])
  {
    FillGoods(f, s);
    FillSeps(f, s);
  }

  lemma FillGoods(f: Frame, s: Tree)
    requires FrameOk(f) && Good(Fill(f, s))
    ensures Good(s) && Height(Fill(f, s)) == 1 + Height(s) && 2 <= |f.kids| <= MAX_KEYS
    ensures forall j :: 0 <= j < |f.kids| && j != f.i ==> Good(f.kids[j]) && Height(f.kids[j]) == Height(s)
  {
    hide Separated;
    var kids := f.kids[f.i := s];
    assert kids[f.i] == s;
    assert forall j :: 0 <= j < |f.kids| && j != f.i ==> kids[j] == f.kids[j];
  }

  lemma FillSeps(f: Frame, s: Tree)
    requires FrameOk(f) && Good(Fill(f, s))
    ensures forall a, b :: 0 <= a < b < |f.kids| - 1 ==> f.keys[a] < f.keys[b]
    ensures forall j :: 0 <= j < |f.kids| - 1 && j != f.i ==> Below(KeySet(Leaves(f.kids[j])), f.keys[j])
    ensures forall j :: 1 <= j < |f.kids| && j != f.i ==> AtLeast(KeySet(Leaves(f.kids[j])), f.keys[j - 1])
    ensures f.i < |f.kids| - 1 ==> Below(KeySet(Leaves(s)), f.keys[f.i])
    ensures f.i >= 1 ==> AtLeast(KeySet(Leaves(s)), f.keys[f.i - 1])
  {
    var kids := f.kids[f.i := s];
    assert Separated(f.keys, kids);
    hide KeySet, Leaves, Below, AtLeast, Good, Height;
    assert kids[f.i] == s;
    assert forall j :: 0 <= j < |f.kids| && j != f.i ==> kids[j] == f.kids[j];
  }

  lemma FillReplaces(f: Frame, s: Tree, s': Tree, key: int)
    requires FrameOk(f) && Good(Fill(f, s)) && Replaces(s, s', key) && Routes(f, key)
    ensures Replaces(Fill(f, s), Fill(f, s'), key)
  {
    FillSeparated(f, s, s', key);
    FillKeys(f, s, s', key);
    hide Good, Height, KeySet, LeavesAll;
  }

  lemma FillKeys(f: Frame, s: Tree, s': Tree, key: int)
    requires FrameOk(f) && KeySet(Leaves(s')) <= KeySet(Leaves(s)) + {key}
    ensures KeySet(LeavesAll(f.kids[f.i := s'])) <= KeySet(LeavesAll(f.kids[f.i := s])) + {key}
  {
    hide KeySet, Leaves, LeavesAll;
    var kids, kids' := f.kids[f.i := s], f.kids[f.i := s'];
    forall k | k in KeySet(LeavesAll(kids')) ensures k in KeySet(LeavesAll(kids)) + {key} {
      KeyInSome(kids', k);
      var j :| 0 <= j < |kids'| && k in KeySet(Leaves(kids'[j]));
      if k != key {
        assert kids[j] == if j == f.i then s else kids'[j];
        KeyFromKid(kids, j, k);
      }
    }
  }

  lemma FillSeparated(f: Frame, s: Tree, s': Tree, key: int)
    requires FrameOk(f) && Good(Fill(f, s)) && Replaces(s, s', key) && Routes(f, key)
    ensures Separated(f.keys, f.kids[f.i := s']) && Good(Fill(f, s')) && Height(Fill(f, s')) == Height(Fill(f, s))
  {
    var kids' := f.kids[f.i := s'];
    assert Separated(f.keys, kids') by {
      hide KeySet, Leaves, Good, Height, Below, AtLeast, Replaces, Routes;
      FillFacts(f, s);
      BesideKids(f, s, s', key);
    }
    FillHeight(f, s, s');
  }

  lemma BesideKids(f: Frame, s: Tree, s': Tree, key: int)
    requires FrameOk(f) && Good(Fill(f, s)) && Replaces(s, s', key) && Routes(f, key)
    ensures f.i < |f.kids| - 1 ==> Below(KeySet(Leaves(s')), f.keys[f.i])
    ensures f.i >= 1 ==> AtLeast(KeySet(Leaves(s')), f.keys[f.i - 1])
  {
    hide KeySet, Leaves, Good, Height, Fill;
    FillFacts(f, s);
  }

  lemma FillHeight(f: Frame, s: Tree, s': Tree)
    requires FrameOk(f) && Good(Fill(f, s)) && Good(s') && Height(s') == Height(s)
    requires Separated(f.keys, f.kids[f.i := s'])
    ensures Good(Fill(f, s')) && Height(Fill(f, s')) == Height(Fill(f, s))
  {
    hide Separated;
    FillFacts(f, s);
    var kids' := f.kids[f.i := s'];
    assert forall j :: 0 <= j < |kids'| ==> kids'[j] == if j == f.i then s' else f.kids[j];
  }

  lemma {:induction false} PlugReplaces(fs: seq<Frame>, s: Tree, s': Tree, key: int)
    requires FramesOk(fs) && Good(Plug(fs, s)) && Replaces(s, s', key) && Routed(fs, key)
    ensures Good(Plug(fs, s'))
    decreases |fs|
  {
    hide Good, Replaces;
    if fs == [] {
      ReplacedGood(s, s', key);
    } else {
      var f := fs[|fs| - 1];
      var up := fs[..|fs| - 1];
      PlugGood(up, Fill(f, s));
      FillReplaces(f, s, s', key);
      PlugReplaces(up, Fill(f, s), Fill(f, s'), key);
    }
  }

  lemma ReplacedGood(s: Tree, s': Tree, key: int)
    requires Replaces(s, s', key)
    ensures Good(s')
  {
  }

  /** A part of a good tree is good. */
  lemma {:induction false} PlugGood(fs: seq<Frame>, s: Tree)
    requires FramesOk(fs) && Good(Plug(fs, s))
    ensures Good(s)
    decreases |fs|
  {
    if fs != [] {
      var f := fs[|fs| - 1];
      PlugGood(fs[..|fs| - 1], Fill(f, s));
      FillFacts(f, s);
    }
  }

  // ----- splitting -----

  /** Left and right halves of an overfull node stand in s's place, key x between. */
  ghost predicate SplitOf(s: Tree, l: Tree, x: int, r: Tree, key: int) {
    && Good(l) && Good(r) && Height(l) == Height(r) == Height(s)
    && Below(KeySet(Leaves(l)), x) && AtLeast(KeySet(Leaves(r)), x)
    && KeySet(Leaves(l)) + KeySet(Leaves(r)) <= KeySet(Leaves(s)) + {key}
  }

  /** The node at f after its child i was split into l and r around x. */
  function Widen(f: Frame, l: Tree, x: int, r: Tree): Tree
    requires FrameOk(f)
  {
    Inner(f.id, f.keys[..f.i] + [x] + f.keys[f.i..], f.kids[..f.i] + [l, r] + f.kids[f.i + 1..])
  }

  const MID := (MAX_KEYS + 1) / 2

  /** The lower part of an overfull internal node, with a junk key as parsed. */
  function LowerHalf(w: Tree): Tree
    requires w.Inner? && |w.keys| == |w.kids| == MAX_KEYS + 1
  {
    Inner(w.id, w.keys[..MID] + [w.kids[MID].id], w.kids[..MID + 1])
  }

  function UpperHalf(w: Tree, id: int): Tree
    requires w.Inner? && |w.keys| == |w.kids| == MAX_KEYS + 1
  {
    Inner(id, w.keys[MID + 1..], w.kids[MID + 1..])
  }

  function NewRoot(id: int, l: Tree, x: int, r: Tree): Tree {
    Inner(id, [x, r.id], [l, r])
  }

  /** The tree after the node at the end of the path was split into l and r
      around x; nid is the next unused node id. */
  function Climb(fs: seq<Frame>, l: Tree, x: int, r: Tree, nid: int): (Tree, int)
    requires FramesOk(fs)
    decreases |fs|
  {
    if fs == [] then (NewRoot(nid, l, x, r), nid + 1)
    else
      var f := fs[|fs| - 1];
      var up := fs[..|fs| - 1];
      var w := Widen(f, l, x, r);
      if |w.keys| == MAX_KEYS + 1 then Climb(up, LowerHalf(w), w.keys[MID], UpperHalf(w, nid), nid + 1)
      else (Plug(up, w), nid)
  }

  /** What widening leaves in order: everything but the size bound. */
  ghost predicate Wide(w: Tree, h: nat) {
    && w.Inner? && |w.keys| == |w.kids|
    && (forall i :: 0 <= i < |w.kids| ==> Good(w.kids[i]) && Height(w.kids[i]) == h)
    && Separated(w.keys, w.kids)
  }

  function WideKid(f: Frame, l: Tree, r: Tree, j: nat): Tree
    requires FrameOk(f) && j <= |f.kids|
  {
    if j < f.i then f.kids[j] else if j == f.i then l else if j == f.i + 1 then r else f.kids[j - 1]
  }

  function WideKey(f: Frame, x: int, j: nat): int
    requires FrameOk(f) && j <= |f.keys|
  {
    if j < f.i then f.keys[j] else if j == f.i then x else f.keys[j - 1]
  }

  lemma WidenAt(f: Frame, l: Tree, x: int, r: Tree)
    requires FrameOk(f)
    ensures var w := Widen(f, l, x, r);
            && w.Inner? && w.id == f.id && |w.keys| == |w.kids| == |f.kids| + 1
            && (forall j :: 0 <= j < |w.kids| ==> w.kids[j] == WideKid(f, l, r, j) && w.keys[j] == WideKey(f, x, j))
  {
  }

  lemma WidenWide(f: Frame, s: Tree, l: Tree, x: int, r: Tree, key: int)
    requires FrameOk(f) && Good(Fill(f, s)) && SplitOf(s, l, x, r, key) && Routes(f, key)
    ensures Wide(Widen(f, l, x, r), Height(s))
  {
    hide KeySet, Leaves, Good, Height, Separated, Widen, Below, AtLeast, Routes, WideKid, WideKey, Fill;
    WidenAt(f, l, x, r);
    var a := SomeKey(l);
    var b := SomeKey(r);
    WidenSeparated(f, s, l, x, r, key, a, b);
    var w := Widen(f, l, x, r);
    forall i | 0 <= i < |w.kids| ensures Good(w.kids[i]) && Height(w.kids[i]) == Height(s) {
      WideKidGood(f, s, l, x, r, key, i);
    }
  }

  lemma WideKidGood(f: Frame, s: Tree, l: Tree, x: int, r: Tree, key: int, i: nat)
    requires FrameOk(f) && Good(Fill(f, s)) && SplitOf(s, l, x, r, key) && i <= |f.kids|
    ensures Good(WideKid(f, l, r, i)) && Height(WideKid(f, l, r, i)) == Height(s)
  {
    hide KeySet, Leaves, Good, Height, Separated, Below, AtLeast, Fill;
    FillFacts(f, s);
  }

  lemma WidenSeparated(f: Frame, s: Tree, l: Tree, x: int, r: Tree, key: int, a: int, b: int)
    requires FrameOk(f) && Good(Fill(f, s)) && SplitOf(s, l, x, r, key) && Routes(f, key)
    requires a in KeySet(Leaves(l)) && b in KeySet(Leaves(r))
    requires |Widen(f, l, x, r).keys| == |Widen(f, l, x, r).kids|
    ensures Separated(Widen(f, l, x, r).keys, Widen(f, l, x, r).kids)
  {
    hide KeySet, Leaves, Good, Widen, Height, Below, AtLeast, SplitOf, Routes, WideKid, WideKey, Fill;
    FillFacts(f, s);
    WidenAt(f, l, x, r);
    WidenGap(f, s, l, x, r, key, a, b);
    var w := Widen(f, l, x, r);
    forall p, q | 0 <= p < q < |w.kids| - 1 ensures w.keys[p] < w.keys[q] {
      WideKeysSorted(f, x, p, q);
    }
    forall j | 0 <= j < |w.kids| - 1 ensures Below(KeySet(Leaves(w.kids[j])), w.keys[j]) {
      WideBelow(f, s, l, x, r, key, j);
    }
    forall j | 1 <= j < |w.kids| ensures AtLeast(KeySet(Leaves(w.kids[j])), w.keys[j - 1]) {
      WideAtLeast(f, s, l, x, r, key, j);
    }
  }

  lemma WidenGap(f: Frame, s: Tree, l: Tree, x: int, r: Tree, key: int, a: int, b: int)
    requires FrameOk(f) && Good(Fill(f, s)) && SplitOf(s, l, x, r, key) && Routes(f, key)
    requires a in KeySet(Leaves(l)) && b in KeySet(Leaves(r))
    ensures (f.i > 0 ==> f.keys[f.i - 1] < x) && (f.i < |f.kids| - 1 ==> x < f.keys[f.i])
  {
    hide KeySet, Leaves, Good, Height, Fill;
    FillFacts(f, s);
    assert a < x <= b;
    assert f.i > 0 ==> f.keys[f.i - 1] <= a;
    assert f.i < |f.kids| - 1 ==> b < f.keys[f.i];
  }

  lemma WideKeysSorted(f: Frame, x: int, p: nat, q: nat)
    requires FrameOk(f) && p < q < |f.kids|
    requires forall a, b :: 0 <= a < b < |f.kids| - 1 ==> f.keys[a] < f.keys[b]
    requires f.i > 0 ==> f.keys[f.i - 1] < x
    requires f.i < |f.kids| - 1 ==> x < f.keys[f.i]
    ensures WideKey(f, x, p) < WideKey(f, x, q)
  {
  }

  lemma WideBelow(f: Frame, s: Tree, l: Tree, x: int, r: Tree, key: int, j: nat)
    requires FrameOk(f) && Good(Fill(f, s)) && SplitOf(s, l, x, r, key) && Routes(f, key) && j < |f.kids|
    ensures Below(KeySet(Leaves(WideKid(f, l, r, j))), WideKey(f, x, j))
  {
    FillFacts(f, s);
    hide KeySet, Leaves, Good, Height;
  }

  lemma WideAtLeast(f: Frame, s: Tree, l: Tree, x: int, r: Tree, key: int, j: nat)
    requires FrameOk(f) && Good(Fill(f, s)) && SplitOf(s, l, x, r, key) && Routes(f, key) && 1 <= j <= |f.kids|
    ensures AtLeast(KeySet(Leaves(WideKid(f, l, r, j))), WideKey(f, x, j - 1))
  {
    FillFacts(f, s);
    hide KeySet, Leaves, Good, Height;
  }

  lemma WidenLeaves(f: Frame, l: Tree, x: int, r: Tree)
    requires FrameOk(f)
    ensures Leaves(Widen(f, l, x, r)) == LeavesAll(LeftKids(f)) + (Leaves(l) + Leaves(r)) + LeavesAll(RightKids(f))
  {
    hide Leaves, LeavesAll;
    WidenUnfold(f, l, x, r);
    LeavesAppend(LeftKids(f) + [l, r], RightKids(f));
    LeavesAppend(LeftKids(f), [l, r]);
    assert [l, r] == [l] + [r];
    LeavesAppend([l], [r]);
    LeavesOne(l);
    LeavesOne(r);
  }

  lemma WidenUnfold(f: Frame, l: Tree, x: int, r: Tree)
    requires FrameOk(f)
    ensures Leaves(Widen(f, l, x, r)) == LeavesAll(LeftKids(f) + [l, r] + RightKids(f))
  {
  }

  lemma KeysAround(a: seq<Tree>, b: seq<Tree>, s: seq<Tree>, s': seq<Tree>, key: int)
    requires KeySet(s') <= KeySet(s) + {key}
    ensures KeySet(a + s' + b) <= KeySet(a + s + b) + {key}
  {
    hide KeySet;
    KeySetAppend(a, s);
    KeySetAppend(a + s, b);
    KeySetAppend(a, s');
    KeySetAppend(a + s', b);
  }

  /** Widening adds at most the new key. */
  lemma WidenKeys(f: Frame, s: Tree, l: Tree, x: int, r: Tree, key: int)
    requires FrameOk(f) && SplitOf(s, l, x, r, key)
    ensures KeySet(Leaves(Widen(f, l, x, r))) <= KeySet(Leaves(Fill(f, s))) + {key}
  {
    hide KeySet, Leaves, LeavesAll, Widen, Good;
    WidenLeaves(f, l, x, r);
    FillLeaves(f, s);
    KeySetAppend(Leaves(l), Leaves(r));
    KeysAround(LeavesAll(LeftKids(f)), LeavesAll(RightKids(f)), Leaves(s), Leaves(l) + Leaves(r), key);
  }

  lemma WideGood(w: Tree, h: nat)
    requires Wide(w, h) && 2 <= |w.kids| <= MAX_KEYS
    ensures Good(w) && Height(w) == h + 1
  {
    hide Separated;
  }

  /** A run of consecutive children, with their separators, is well formed. */
  lemma SliceWide(w: Tree, h: nat, id: int, lo: nat, hi: nat, junk: seq<int>)
    requires Wide(w, h) && lo + 2 <= hi <= |w.kids| && |junk| == 1
    ensures Wide(Inner(id, w.keys[lo..hi - 1] + junk, w.kids[lo..hi]), h)
  {
    hide KeySet, Leaves, Good, Height;
    var keys, kids := w.keys[lo..hi - 1] + junk, w.kids[lo..hi];
    assert forall i :: 0 <= i < |kids| ==> kids[i] == w.kids[lo + i];
    assert forall i :: 0 <= i < |kids| - 1 ==> keys[i] == w.keys[lo + i];
  }

  lemma LowerWide(w: Tree, h: nat)
    requires Wide(w, h) && |w.kids| == MAX_KEYS + 1
    ensures Wide(LowerHalf(w), h) && LowerHalf(w).kids == w.kids[..MID + 1]
  {
    hide Wide, KeySet, Leaves, Good, Height;
    assert |w.keys| == |w.kids| && w.Inner? by { WideShape(w, h); }
    SliceWide(w, h, w.id, 0, MID + 1, [w.kids[MID].id]);
    assert w.keys[0..MID] == w.keys[..MID] && w.kids[0..MID + 1] == w.kids[..MID + 1];
  }

  lemma UpperWide(w: Tree, h: nat, id: int)
    requires Wide(w, h) && |w.kids| == MAX_KEYS + 1
    ensures Wide(UpperHalf(w, id), h) && UpperHalf(w, id).kids == w.kids[MID + 1..]
  {
    hide Wide, KeySet, Leaves, Good, Height;
    assert |w.keys| == |w.kids| && w.Inner? by { WideShape(w, h); }
    SliceWide(w, h, id, MID + 1, MAX_KEYS + 1, [w.keys[MAX_KEYS]]);
    assert w.keys[MID + 1..MAX_KEYS] + [w.keys[MAX_KEYS]] == w.keys[MID + 1..];
    assert w.kids[MID + 1..MAX_KEYS + 1] == w.kids[MID + 1..];
  }

  lemma WideShape(w: Tree, h: nat)
    requires Wide(w, h)
    ensures w.Inner? && |w.keys| == |w.kids|
  {
  }

  /** An overfull node's halves replace it around its middle separator. */
  lemma HalvesSplit(w: Tree, h: nat, id: int)
    requires Wide(w, h) && |w.kids| == MAX_KEYS + 1
    ensures var l, r := LowerHalf(w), UpperHalf(w, id);
            && Good(l) && Good(r) && Height(l) == Height(r) == h + 1
            && Leaves(w) == Leaves(l) + Leaves(r)
            && Below(KeySet(Leaves(l)), w.keys[MID]) && AtLeast(KeySet(Leaves(r)), w.keys[MID])
  {
    hide KeySet, Good, Height, Wide, LeavesAll, LowerHalf, UpperHalf;
    WideShape(w, h);
    var l, r := LowerHalf(w), UpperHalf(w, id);
    LowerWide(w, h);
    UpperWide(w, h, id);
    WideShape(l, h);
    WideShape(r, h);
    WideGood(l, h);
    WideGood(r, h);
    LeavesAppend(l.kids, r.kids);
    assert l.kids + r.kids == w.kids;
    KeysLeft(w, h, l.kids);
    KeysRight(w, h, r.kids);
  }

  lemma KeysLeft(w: Tree, h: nat, kids: seq<Tree>)
    requires Wide(w, h) && |w.kids| == MAX_KEYS + 1 && kids == w.kids[..MID + 1]
    ensures Below(KeySet(LeavesAll(kids)), w.keys[MID])
  {
    hide KeySet, Good, Height, Leaves, LeavesAll;
    forall k | k in KeySet(LeavesAll(kids)) ensures k < w.keys[MID] {
      KeyInSome(kids, k);
      var j :| 0 <= j < |kids| && k in KeySet(Leaves(kids[j]));
      KeyLeft(w, h, j, MID, k);
    }
  }

  lemma KeysRight(w: Tree, h: nat, kids: seq<Tree>)
    requires Wide(w, h) && |w.kids| == MAX_KEYS + 1 && kids == w.kids[MID + 1..]
    ensures AtLeast(KeySet(LeavesAll(kids)), w.keys[MID])
  {
    hide KeySet, Good, Height, Leaves, LeavesAll;
    forall k | k in KeySet(LeavesAll(kids)) ensures w.keys[MID] <= k {
      KeyInSome(kids, k);
      var j :| 0 <= j < |kids| && k in KeySet(Leaves(kids[j]));
      KeyRight(w, h, MID + 1 + j, MID, k);
    }
  }

  lemma KeyLeft(w: Tree, h: nat, j: nat, p: nat, k: int)
    requires Wide(w, h) && j <= p < |w.kids| - 1 && k in KeySet(Leaves(w.kids[j]))
    ensures k < w.keys[p]
  {
    hide KeySet, Good, Height, Leaves;
    assert Below(KeySet(Leaves(w.kids[j])), w.keys[j]);
  }

  lemma KeyRight(w: Tree, h: nat, j: nat, p: nat, k: int)
    requires Wide(w, h) && p < j < |w.kids| && k in KeySet(Leaves(w.kids[j]))
    ensures w.keys[p] <= k
  {
    hide KeySet, Good, Height, Leaves, Below;
    assert AtLeast(KeySet(Leaves(w.kids[j])), w.keys[j - 1]);
    assert p == j - 1 || w.keys[p] < w.keys[j - 1];
  }

  lemma NewRootGood(id: int, l: Tree, x: int, r: Tree, s: Tree, key: int)
    requires SplitOf(s, l, x, r, key)
    ensures Good(NewRoot(id, l, x, r)) && Leaves(NewRoot(id, l, x, r)) == Leaves(l) + Leaves(r)
  {
    hide KeySet, Leaves, Below, AtLeast;
    NewRootLeaves(id, l, x, r);
  }

  lemma NewRootLeaves(id: int, l: Tree, x: int, r: Tree)
    ensures Leaves(NewRoot(id, l, x, r)) == Leaves(l) + Leaves(r)
  {
    assert [l, r] == [l] + [r];
    LeavesAppend([l], [r]);
    LeavesOne(l);
    LeavesOne(r);
  }

  /** Splitting all the way up keeps the tree good and its leaves in order. */
  lemma {:induction false} ClimbGood(fs: seq<Frame>, s: Tree, l: Tree, x: int, r: Tree, key: int, nid: int)
    requires FramesOk(fs) && Good(Plug(fs, s)) && SplitOf(s, l, x, r, key) && Routed(fs, key)
    ensures Good(Climb(fs, l, x, r, nid).0)
    ensures Leaves(Climb(fs, l, x, r, nid).0) == LeftOf(fs) + (Leaves(l) + Leaves(r)) + RightOf(fs)
    decreases |fs|
  {
    hide Good, Leaves, LeavesAll, KeySet, SplitOf, Widen, Height, LowerHalf, UpperHalf, NewRoot, Fill, Wide, Below,
         AtLeast, Plug;
    if fs == [] {
      NewRootGood(nid, l, x, r, s, key);
      assert LeftOf(fs) == [] && RightOf(fs) == [];
    } else {
      var f := fs[|fs| - 1];
      var up := fs[..|fs| - 1];
      var w := Widen(f, l, x, r);
      PlugLast(fs, s);
      PlugGood(up, Fill(f, s));
      FillFacts(f, s);
      Regroup(LeftOf(up), LeavesAll(LeftKids(f)), Leaves(l) + Leaves(r), LeavesAll(RightKids(f)), RightOf(up));
      WidenWide(f, s, l, x, r, key);
      WidenKeys(f, s, l, x, r, key);
      WidenLeaves(f, l, x, r);
      WidenAt(f, l, x, r);
      if |w.keys| == MAX_KEYS + 1 {
        WideShape(w, Height(s));
        HalvesSplit(w, Height(s), nid);
        HalvesSplitOf(f, s, w, key, nid);
        ClimbGood(up, Fill(f, s), LowerHalf(w), w.keys[MID], UpperHalf(w, nid), key, nid + 1);
      } else {
        WideGood(w, Height(s));
        WideReplaces(f, s, w, key);
        PlugReplaces(up, Fill(f, s), w, key);
        PlugLeaves(up, w);
      }
    }
  }

  lemma PlugLast(fs: seq<Frame>, s: Tree)
    requires FramesOk(fs) && fs != []
    ensures Plug(fs, s) == Plug(fs[..|fs| - 1], Fill(fs[|fs| - 1], s))
  {
  }

  lemma WideReplaces(f: Frame, s: Tree, w: Tree, key: int)
    requires FrameOk(f) && Good(w) && Height(w) == Height(Fill(f, s))
    requires KeySet(Leaves(w)) <= KeySet(Leaves(Fill(f, s))) + {key}
    ensures Replaces(Fill(f, s), w, key)
  {
  }

  lemma HalvesSplitOf(f: Frame, s: Tree, w: Tree, key: int, nid: int)
    requires FrameOk(f) && w.Inner? && |w.keys| == |w.kids| == MAX_KEYS + 1 && Height(Fill(f, s)) == Height(s) + 1
    requires KeySet(Leaves(w)) <= KeySet(Leaves(Fill(f, s))) + {key}
    requires var l, r := LowerHalf(w), UpperHalf(w, nid);
            && Good(l) && Good(r) && Height(l) == Height(r) == Height(s) + 1
            && Leaves(w) == Leaves(l) + Leaves(r)
            && Below(KeySet(Leaves(l)), w.keys[MID]) && AtLeast(KeySet(Leaves(r)), w.keys[MID])
    ensures SplitOf(Fill(f, s), LowerHalf(w), w.keys[MID], UpperHalf(w, nid), key)
  {
    hide KeySet, Leaves, Good, Height;
    KeySetAppend(Leaves(LowerHalf(w)), Leaves(UpperHalf(w, nid)));
  }
}
