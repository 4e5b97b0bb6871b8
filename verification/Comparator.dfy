/** The column comparator of python/griddb_native_compare.py: two rows of lanes
    compared by a straight-line program, one three-way IF a column. */
module Comparator {
  import opened Lexicon
  import opened Interp
  import opened Structured
  import opened SemRules

  datatype Layout = Layout(baseA: int, baseB: int, lanes: nat, t: int, h: int, c: int)

  /** Columns at or after i in which the rows differ. */
  function Hamming(a: seq<int>, b: seq<int>, i: nat): nat
    requires |a| == |b| && i <= |a|
    decreases |a| - i
  {
    if i == |a| then 0 else (if a[i] != b[i] then 1 else 0) + Hamming(a, b, i + 1)
  }

  /** Sum of the absolute column differences at or after i. */
  function Manhattan(a: seq<int>, b: seq<int>, i: nat): nat
    requires |a| == |b| && i <= |a|
    decreases |a| - i
  {
    if i == |a| then 0 else Abs(a[i] - b[i]) + Manhattan(a, b, i + 1)
  }

  /** Both measures vanish exactly when the rows are equal. */
  lemma {:induction false} ZeroMeansEqual(a: seq<int>, b: seq<int>, i: nat)
    requires |a| == |b| && i <= |a|
    ensures Hamming(a, b, i) == 0 <==> a[i..] == b[i..]
    ensures Manhattan(a, b, i) == 0 <==> a[i..] == b[i..]
    decreases |a| - i
  {
    if i < |a| {
      ZeroMeansEqual(a, b, i + 1);
      assert a[i..] == [a[i]] + a[i + 1..] && b[i..] == [b[i]] + b[i + 1..];
    }
  }

  // ----- the programs -----

  function Differs(l: Layout, distance: Expr): Block {
    Then(Assign(l.h, Add(Slot(l.h), Const(1))), Then(Assign(l.c, Add(Slot(l.c), distance)), Done))
  }

  function Column(l: Layout, i: nat, rest: Block): Block {
    Then(Assign(l.t, Sub(Slot(l.baseA + i), Slot(l.baseB + i))),
    Then(If(Slot(l.t), Differs(l, Slot(l.t)), Done, Differs(l, Sub(Const(0), Slot(l.t))), 3), rest))
  }

  function Report(l: Layout): Block {
    Then(Emits(Slot(l.h)), Then(Emits(Slot(l.c)), Done))
  }

  function Columns(l: Layout, i: nat): Block
    requires i <= l.lanes
    decreases l.lanes - i
  {
    if i == l.lanes then Report(l) else Column(l, i, Columns(l, i + 1))
  }

  function ComparatorBlock(l: Layout): Block {
    Then(Assign(l.h, Const(0)), Then(Assign(l.c, Const(0)), Columns(l, 0)))
  }

  function ExactMatchBlock(h: int): Block {
    Then(If(Slot(h), Then(Emits(Const(0)), Done), Then(Emits(Const(1)), Done), Done, 2), Done)
  }

  /** The builder unrolls the columns into one token record. */
  method BuildColumnComparator(slot: int, l: Layout) returns (toks: seq<Token>)
    ensures toks == Program(slot, Flat(ComparatorBlock(l)))
  {
    hide Flat, Columns;
    var body := CmdToks(Assign(l.h, Const(0))) + CmdToks(Assign(l.c, Const(0)));
    FlatThen(Assign(l.h, Const(0)), Then(Assign(l.c, Const(0)), Columns(l, 0)));
    FlatThen(Assign(l.c, Const(0)), Columns(l, 0));
    assert Flat(ComparatorBlock(l)) == body + Flat(Columns(l, 0));
    var i := 0;
    while i < l.lanes
      invariant 0 <= i <= l.lanes
      invariant Flat(ComparatorBlock(l)) == body + Flat(Columns(l, i))
    {
      ColumnsStep(l, i);
      var diff := Assign(l.t, Sub(Slot(l.baseA + i), Slot(l.baseB + i)));
      var test := If(Slot(l.t), Differs(l, Slot(l.t)), Done, Differs(l, Sub(Const(0), Slot(l.t))), 3);
      FlatThen(diff, Then(test, Columns(l, i + 1)));
      FlatThen(test, Columns(l, i + 1));
      body := body + CmdToks(diff) + CmdToks(test);
      i := i + 1;
    }
    ReportLast(l);
    body := body + Flat(Report(l));
    toks := VerbArg(DEF, slot) + body + [RECORD];
  }

  lemma FlatThen(c: Cmd, rest: Block)
    ensures Flat(Then(c, rest)) == CmdToks(c) + Flat(rest)
  {
  }

  lemma ColumnsStep(l: Layout, i: nat)
    requires i < l.lanes
    ensures Columns(l, i) == Column(l, i, Columns(l, i + 1))
  {
  }

  lemma ReportLast(l: Layout)
    ensures Columns(l, l.lanes) == Report(l)
  {
  }

  lemma DiffersProper(l: Layout, d: Expr)
    ensures Proper(Differs(l, d))
  {
    assert Proper(Done);
    assert Proper(Then(Assign(l.c, Add(Slot(l.c), d)), Done));
  }

  lemma {:induction false} ColumnsProper(l: Layout, i: nat)
    requires i <= l.lanes
    ensures Proper(Columns(l, i))
    decreases l.lanes - i
  {
    if i < l.lanes {
      ColumnsProper(l, i + 1);
      DiffersProper(l, Slot(l.t));
      DiffersProper(l, Sub(Const(0), Slot(l.t)));
      assert Proper(Then(If(Slot(l.t), Differs(l, Slot(l.t)), Done, Differs(l, Sub(Const(0), Slot(l.t))), 3),
             Columns(l, i + 1)));
    } else {
      assert Proper(Then(Emits(Slot(l.c)), Done));
    }
  }

  // ----- their runs -----

  /** Three distinct granted scratch slots outside the lanes, which hold a and b. */
  ghost predicate Laid(g: set<int>, l: Layout, a: seq<int>, b: seq<int>, slots: map<int, int>) {
    && |a| == |b| == l.lanes && {l.t, l.h, l.c} <= g && 0 <= l.t && 0 <= l.h && 0 <= l.c && l.t != l.h && l.h != l.c
    && l.c != l.t
    && 0 <= l.baseA && 0 <= l.baseB
    && (forall i :: 0 <= i < l.lanes ==> Lane(l, i, a[i], b[i], slots))
  }

  predicate Lane(l: Layout, i: int, x: int, y: int, slots: map<int, int>) {
    && l.baseA + i in slots && slots[l.baseA + i] == x && l.baseA + i !in {l.t, l.h, l.c}
    && l.baseB + i in slots && slots[l.baseB + i] == y && l.baseB + i !in {l.t, l.h, l.c}
  }

  /** Only the scratch slots differ. */
  predicate Kept(l: Layout, before: map<int, int>, after: map<int, int>) {
    before - {l.t, l.h, l.c} == after - {l.t, l.h, l.c}
  }

  lemma ScratchWrite(g: set<int>, l: Layout, a: seq<int>, b: seq<int>, slots: map<int, int>, s: int, v: int)
    requires Laid(g, l, a, b, slots) && s in {l.t, l.h, l.c}
    ensures Laid(g, l, a, b, slots[s := v]) && Kept(l, slots, slots[s := v])
  {
    assert forall i :: 0 <= i < l.lanes ==> Lane(l, i, a[i], b[i], slots);
  }

  lemma LaneVal(g: set<int>, l: Layout, a: seq<int>, b: seq<int>, slots: map<int, int>, i: nat)
    requires Laid(g, l, a, b, slots) && i < l.lanes
    ensures |a| == |b| == l.lanes
    ensures Val(Sub(Slot(l.baseA + i), Slot(l.baseB + i)), slots) == Some(a[i] - b[i])
    ensures Cost(Sub(Slot(l.baseA + i), Slot(l.baseB + i))) == 3
  {
    assert Lane(l, i, a[i], b[i], slots);
    DiffVal(slots, l.baseA + i, l.baseB + i);
  }

  ghost predicate Counters(l: Layout, slots: map<int, int>, h: int, c: int) {
    l.h in slots && slots[l.h] == h && l.c in slots && slots[l.c] == c
  }

  lemma DiffersRuns(g: set<int>, l: Layout, a: seq<int>, b: seq<int>, d: Expr, v: int, m: Mem, h: int, c: int, gas: nat)
    requires Laid(g, l, a, b, m.slots) && Counters(l, m.slots, h, c) && Cost(d) + 7 <= gas
    requires Val(d, m.slots) == Some(v) && Val(d, m.slots[l.h := h + 1]) == Some(v)
    ensures var x := Sem(g, Differs(l, d), m, gas);
            && Ok(x, gas - Cost(d) - 7, m.out) && Laid(g, l, a, b, x.value.0.slots) && Kept(l, m.slots, x.value.0.slots)
            && Counters(l, x.value.0.slots, h + 1, c + v)
  {
    hide Sem, Val, Cost;
    NextVal(m.slots, l.h);
    var rest := Then(Assign(l.c, Add(Slot(l.c), d)), Done);
    SemAssign(g, l.h, Add(Slot(l.h), Const(1)), rest, m, gas);
    ScratchWrite(g, l, a, b, m.slots, l.h, h + 1);
    var m1 := m.(slots := m.slots[l.h := h + 1]);
    SumVal(m1.slots, l.c, d);
    SemAssign(g, l.c, Add(Slot(l.c), d), Done, m1, gas - 4);
    ScratchWrite(g, l, a, b, m1.slots, l.c, c + v);
    SemDone(g, m1.(slots := m1.slots[l.c := c + v]), gas - Cost(d) - 7);
  }

  lemma SumVal(slots: map<int, int>, s: int, d: Expr)
    requires 0 <= s && s in slots && Val(d, slots).Some?
    ensures Val(Add(Slot(s), d), slots) == Some(slots[s] + Val(d, slots).value) && Cost(Add(Slot(s), d)) == Cost(d) + 2
  {
  }

  lemma NegVal(slots: map<int, int>, s: int)
    requires 0 <= s && s in slots
    ensures Val(Sub(Const(0), Slot(s)), slots) == Some(-slots[s]) && Cost(Sub(Const(0), Slot(s))) == 3
  {
  }

  lemma {:induction false} ColumnsRun(g: set<int>, l: Layout, a: seq<int>, b: seq<int>, i: nat, m: Mem, h: int,
      c: int, gas: nat)
    requires Laid(g, l, a, b, m.slots) && Counters(l, m.slots, h, c) && i <= l.lanes && 16 * (l.lanes - i) + 4 <= gas
    ensures |a| == |b| == l.lanes
    ensures var x := Sem(g, Columns(l, i), m, gas);
            && Ok(x, gas - 16 * (l.lanes - i) - 4, m.out + [h + Hamming(a, b, i), c + Manhattan(a, b, i)])
            && Kept(l, m.slots, x.value.0.slots)
            && Counters(l, x.value.0.slots, h + Hamming(a, b, i), c + Manhattan(a, b, i))
    decreases l.lanes - i
  {
    hide Sem, Val, Cost, Laid, Differs;
    LaidFacts(g, l, a, b, m.slots);
    if i == l.lanes {
      ReportRuns(g, l, m, h, c, gas);
    } else {
      LaneVal(g, l, a, b, m.slots, i);
      var rest := Columns(l, i + 1);
      var d := a[i] - b[i];
      var plus, minus := Differs(l, Slot(l.t)), Differs(l, Sub(Const(0), Slot(l.t)));
      SemAssign(g, l.t, Sub(Slot(l.baseA + i), Slot(l.baseB + i)), Then(If(Slot(l.t), plus, Done, minus, 3), rest), m,
          gas);
      ScratchWrite(g, l, a, b, m.slots, l.t, d);
      var m1 := m.(slots := m.slots[l.t := d]);
      SlotVal(m1.slots, l.t);
      SemIf(g, Slot(l.t), plus, Done, minus, rest, m1, gas - 4);
      SemDone(g, m1, gas - 6);
      SlotVal(m1.slots[l.h := h + 1], l.t);
      NegVal(m1.slots, l.t);
      NegVal(m1.slots[l.h := h + 1], l.t);
      if d > 0 {
        DiffersRuns(g, l, a, b, Slot(l.t), d, m1, h, c, gas - 6);
      } else if d < 0 {
        DiffersRuns(g, l, a, b, Sub(Const(0), Slot(l.t)), -d, m1, h, c, gas - 6);
      }
      var x := Sem(g, if d > 0 then plus else if d == 0 then Done else minus, m1, gas - 6).value;
      var hit := if d == 0 then 0 else 1;
      ColumnsRun(g, l, a, b, i + 1, x.0, h + hit, c + Abs(d), x.1);
    }
  }

  lemma LaidFacts(g: set<int>, l: Layout, a: seq<int>, b: seq<int>, slots: map<int, int>)
    requires Laid(g, l, a, b, slots)
    ensures |a| == |b| == l.lanes && {l.t, l.h, l.c} <= g && 0 <= l.t && 0 <= l.h && 0 <= l.c && l.t != l.h
            && l.h != l.c && l.c != l.t
  {
  }

  lemma ReportRuns(g: set<int>, l: Layout, m: Mem, h: int, c: int, gas: nat)
    requires Counters(l, m.slots, h, c) && 0 <= l.h && 0 <= l.c && 4 <= gas
    ensures Sem(g, Report(l), m, gas) == Some((m.(out := m.out + [h, c]), gas - 4, Fell))
  {
    hide Sem, Val, Cost;
    SlotVal(m.slots, l.h);
    SlotVal(m.slots, l.c);
    SemEmits(g, Slot(l.h), Then(Emits(Slot(l.c)), Done), m, gas);
    var m1 := m.(out := m.out + [h]);
    SemEmits(g, Slot(l.c), Done, m1, gas - 2);
    var m2 := m1.(out := m1.out + [c]);
    SemDone(g, m2, gas - 4);
    assert m2.out == m.out + [h, c];
  }

  /** Run on the walker, for every lane count and all lane values, the built
      program emits the Hamming and the Manhattan distance of the two rows,
      keeps every slot but its scratch, and takes at most 16 steps a lane and
      ten more. */
  lemma ComparatorRuns(env: Env, slot: int, l: Layout, a: seq<int>, b: seq<int>, slots: map<int, int>, st: State)
    returns (st': State, slots': map<int, int>)
    requires slot in env.programs && env.programs[slot] == Program(slot, Flat(ComparatorBlock(l))) && env.attached
    requires Laid(Grants(env), l, a, b, slots) && st.grid == GridOf(slots) && st.steps == 0
             && 16 * l.lanes + 10 <= env.maxSteps
    ensures |a| == |b| == l.lanes
    ensures CallSlot(env, slot, st) == (st', Fall(0))
    ensures st'.output == st.output + [Hamming(a, b, 0), Manhattan(a, b, 0)]
    ensures st'.stack == st.stack && st'.steps <= 16 * l.lanes + 10
    ensures st'.grid == GridOf(slots') && Kept(l, slots, slots') && l.h in slots' && slots'[l.h] == Hamming(a, b, 0)
  {
    hide Sem, Val, Cost, GridOf, Flat, CallSlot, Columns, Laid;
    var g := Grants(env);
    LaidFacts(g, l, a, b, slots);
    var m := Mem(slots, st.output);
    var gas := env.maxSteps - 1;
    ConstVal(slots, 0);
    SemAssign(g, l.h, Const(0), Then(Assign(l.c, Const(0)), Columns(l, 0)), m, gas);
    ScratchWrite(g, l, a, b, slots, l.h, 0);
    var m1 := m.(slots := slots[l.h := 0]);
    ConstVal(m1.slots, 0);
    SemAssign(g, l.c, Const(0), Columns(l, 0), m1, gas - 2);
    ScratchWrite(g, l, a, b, m1.slots, l.c, 0);
    var m2 := m1.(slots := m1.slots[l.c := 0]);
    ColumnsRun(g, l, a, b, 0, m2, 0, 0, gas - 4);
    ColumnsProper(l, 0);
    assert Proper(Then(Assign(l.c, Const(0)), Columns(l, 0)));
    st' := ProgramWalks(env, slot, ComparatorBlock(l), m, st);
    slots' := Sem(g, ComparatorBlock(l), m, gas).value.0.slots;
  }

  /** The exact-match program emits 1 when the count in its slot is zero, 0 when
      it is positive, and nothing when it is negative. */
  lemma ExactMatchRuns(env: Env, slot: int, h: int, slots: map<int, int>, st: State) returns (st': State)
    requires slot in env.programs && env.programs[slot] == Program(slot, Flat(ExactMatchBlock(h))) && env.attached
    requires 0 <= h && h in slots && st.grid == GridOf(slots) && st.steps + 6 <= env.maxSteps
    ensures CallSlot(env, slot, st) == (st', Fall(0)) && st'.grid == st.grid
    ensures st'.output == st.output + (if slots[h] > 0 then [0] else if slots[h] == 0 then [1] else [])
  {
    hide Sem, Val, Cost, GridOf, Flat, CallSlot;
    var g := Grants(env);
    var m := Mem(slots, st.output);
    var gas := Gas(env, st) - 1;
    var no, yes := Then(Emits(Const(0)), Done), Then(Emits(Const(1)), Done);
    SlotVal(slots, h);
    SemIfTwo(g, Slot(h), no, yes, Done, m, gas);
    ConstVal(slots, 0);
    ConstVal(slots, 1);
    SemEmits(g, Const(0), Done, m, gas - 2);
    SemEmits(g, Const(1), Done, m, gas - 2);
    SemDone(g, m.(out := m.out + [0]), gas - 4);
    SemDone(g, m.(out := m.out + [1]), gas - 4);
    SemDone(g, m, gas - 2);
    assert Proper(no) && Proper(yes);
    assert Proper(ExactMatchBlock(h));
    st' := ProgramWalks(env, slot, ExactMatchBlock(h), m, st);
  }

  /** Comparator, then exact match on its counter: the last value emitted is 1
      exactly when the two rows are equal. */
  lemma ExactMatchDecides(env: Env, p: int, q: int, l: Layout, a: seq<int>, b: seq<int>, slots: map<int, int>,
      st: State) returns (st1: State, st2: State)
    requires p in env.programs && env.programs[p] == Program(p, Flat(ComparatorBlock(l))) && env.attached
    requires q in env.programs && env.programs[q] == Program(q, Flat(ExactMatchBlock(l.h)))
    requires Laid(Grants(env), l, a, b, slots) && st.grid == GridOf(slots) && st.steps == 0
             && 16 * l.lanes + 10 <= env.maxSteps
    ensures CallSlot(env, p, st) == (st1, Fall(0)) && CallSlot(env, q, st1.(steps := 0)) == (st2, Fall(0))
    ensures st2.output == st1.output + [if a == b then 1 else 0]
  {
    hide GridOf, Flat, CallSlot, Laid;
    LaidFacts(Grants(env), l, a, b, slots);
    var slots1;
    st1, slots1 := ComparatorRuns(env, p, l, a, b, slots, st);
    st2 := ExactMatchRuns(env, q, l.h, slots1, st1.(steps := 0));
    ZeroMeansEqual(a, b, 0);
    assert a[0..] == a && b[0..] == b;
  }
}
