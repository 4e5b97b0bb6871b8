/** The scheduler of python/sched5bit.py: a program of the walker's own language
    that assigns every operation its as-soon-as-possible cycle. */
module Scheduler {
  import opened Lexicon
  import opened Interp
  import opened Structured
  import opened SemRules
  import Budgets

  // ----- what a schedule is -----

  datatype Op = Op(dest: int, a: int, b: int)

  /** Read after write: i reads what the earlier j writes. */
  predicate Dep(ops: seq<Op>, j: nat, i: nat) {
    j < i < |ops| && (ops[j].dest == ops[i].a || ops[j].dest == ops[i].b)
  }

  /** The cycle of i: one more than the latest operation it depends on. */
  function Cycle(ops: seq<Op>, i: nat): nat
    requires i < |ops|
    decreases i, 1, 0
  {
    Latest(ops, i, i)
  }

  /** The same, over the dependences on operations before k. */
  function Latest(ops: seq<Op>, i: nat, k: nat): nat
    requires k <= i < |ops|
    decreases i, 0, k
  {
    if k == 0 then 0
    else
      var r := Latest(ops, i, k - 1);
      if Dep(ops, k - 1, i) && Cycle(ops, k - 1) + 1 > r then Cycle(ops, k - 1) + 1 else r
  }

  /** A chain of dependences, first to last. */
  predicate Chain(ops: seq<Op>, c: seq<nat>) {
    c != [] && c[|c| - 1] < |ops| && forall k :: 0 <= k < |c| - 1 ==> Dep(ops, c[k], c[k + 1])
  }

  /** An assignment of cycles that respects every dependence. */
  predicate Valid(ops: seq<Op>, s: seq<nat>) {
    |s| == |ops| && forall j, i :: 0 <= j < |ops| && 0 <= i < |ops| && Dep(ops, j, i) ==> s[j] < s[i]
  }

  lemma {:induction false} LatestBounds(ops: seq<Op>, i: nat, k: nat, j: nat)
    requires j < k <= i < |ops| && Dep(ops, j, i)
    ensures Cycle(ops, j) < Latest(ops, i, k)
    decreases k
  {
    if j < k - 1 {
      LatestBounds(ops, i, k - 1, j);
    }
  }

  /** Every dependence takes at least one cycle. */
  lemma DependencesIncrease(ops: seq<Op>, j: nat, i: nat)
    requires Dep(ops, j, i)
    ensures Cycle(ops, j) < Cycle(ops, i)
  {
    LatestBounds(ops, i, i, j);
  }

  /** No valid schedule runs any operation earlier. */
  lemma {:induction false} LatestIsLeast(ops: seq<Op>, s: seq<nat>, i: nat, k: nat)
    requires Valid(ops, s) && k <= i < |ops|
    ensures Latest(ops, i, k) <= s[i]
    decreases i, k
  {
    if k > 0 {
      LatestIsLeast(ops, s, i, k - 1);
      if Dep(ops, k - 1, i) {
        LatestIsLeast(ops, s, k - 1, k - 1);
        assert s[k - 1] < s[i];
      }
    }
  }

  /** The cycle is the length of a dependence chain ending at the operation. */
  lemma {:induction false} LongestChain(ops: seq<Op>, i: nat, k: nat) returns (c: seq<nat>)
    requires k <= i < |ops|
    ensures Chain(ops, c) && c[|c| - 1] == i && |c| - 1 == Latest(ops, i, k)
    decreases i, k
  {
    if k == 0 {
      c := [i];
    } else {
      c := LongestChain(ops, i, k - 1);
      if Dep(ops, k - 1, i) && Cycle(ops, k - 1) + 1 > Latest(ops, i, k - 1) {
        var d := LongestChain(ops, k - 1, k - 1);
        c := d + [i];
        forall q | 0 <= q < |c| - 1 ensures Dep(ops, c[q], c[q + 1]) {
          if q == |d| - 1 {
            assert c[q] == k - 1 && c[q + 1] == i;
          } else {
            assert c[q] == d[q] && c[q + 1] == d[q + 1];
          }
        }
      }
    }
  }

  /** And no chain ending there is longer. */
  lemma {:induction false} ChainsAreShorter(ops: seq<Op>, c: seq<nat>)
    requires Chain(ops, c)
    ensures |c| - 1 <= Cycle(ops, c[|c| - 1])
    decreases |c|
  {
    if |c| > 1 {
      var d := c[..|c| - 1];
      assert Dep(ops, c[|c| - 2], c[|c| - 2 + 1]);
      forall k | 0 <= k < |d| - 1 ensures Dep(ops, d[k], d[k + 1]) {
        assert Dep(ops, c[k], c[k + 1]);
      }
      ChainsAreShorter(ops, d);
      DependencesIncrease(ops, c[|c| - 2], c[|c| - 1]);
    }
  }

  // ----- the program -----

  const N := 1
  const I := 2
  const J := 3
  const C := 4
  const TA := 5
  const TB := 6
  const TC := 7
  const MAXC := 8
  const PROG := 9
  const NMAX := 4096
  const DEST_B := 100
  const A_B := DEST_B + NMAX
  const B_B := A_B + NMAX
  const CYC_B := B_B + NMAX

  function Cell(base: int, s: int): Expr {
    At(Add(Const(base), Slot(s)))
  }

  function UpdateR(): Block {
    Then(Assign(TA, Add(Cell(CYC_B, J), Const(1))),
    Then(If(Sub(Slot(TA), Slot(C)), Then(Assign(C, Slot(TA)), Done), Done, Done, 3), Done))
  }

  function MatchSecond(): Block {
    Then(If(Sub(Slot(TA), Slot(TC)), Done, UpdateR(), Done, 3), Done)
  }

  function DepAndReady(): Block {
    Then(Assign(TA, Cell(DEST_B, J)),
    Then(Assign(TB, Cell(A_B, I)),
    Then(Assign(TC, Cell(B_B, I)),
    Then(If(Sub(Slot(TA), Slot(TB)), MatchSecond(), UpdateR(), MatchSecond(), 3),
    Then(Assign(J, Add(Slot(J), Const(1))), Done)))))
  }

  function InnerBody(): Block {
    Then(If(Sub(Slot(J), Slot(I)), Then(Breaks, Done), Then(Breaks, Done), DepAndReady(), 3), Done)
  }

  function Finish(): Block {
    Then(Put(Add(Const(CYC_B), Slot(I)), Slot(C)),
    Then(If(Sub(Slot(C), Slot(MAXC)), Then(Assign(MAXC, Slot(C)), Done), Done, Done, 3),
    Then(Assign(I, Add(Slot(I), Const(1))), Done)))
  }

  function Outer(): Block {
    Then(Assign(C, Const(0)),
    Then(Assign(J, Const(0)),
    Then(Loops(InnerBody()), Finish())))
  }

  function OuterBody(): Block {
    Then(If(Sub(Slot(I), Slot(N)), Then(Breaks, Done), Then(Breaks, Done), Outer(), 3), Done)
  }

  function SchedulerBlock(): Block {
    Then(Assign(I, Const(0)),
    Then(Assign(MAXC, Const(0)),
    Then(Loops(OuterBody()), Done)))
  }

  function SchedulerProgram(): seq<Token> {
    Program(PROG, Flat(SchedulerBlock()))
  }

  lemma SchedulerProper()
    ensures Proper(SchedulerBlock())
  {
    assert Proper(Then(Breaks, Done)) && Proper(UpdateR());
    assert Proper(MatchSecond());
    assert Proper(Then(Assign(J, Add(Slot(J), Const(1))), Done));
    assert Proper(DepAndReady()) by {
      hide MatchSecond, UpdateR;
      assert Proper(Then(If(Sub(Slot(TA), Slot(TB)), MatchSecond(), UpdateR(), MatchSecond(), 3),
             Then(Assign(J, Add(Slot(J), Const(1))), Done)));
      assert Proper(Then(Assign(TC, Cell(B_B, I)),
             Then(If(Sub(Slot(TA), Slot(TB)), MatchSecond(), UpdateR(), MatchSecond(), 3),
                 Then(Assign(J, Add(Slot(J), Const(1))), Done))));
    }
    hide DepAndReady;
    assert Proper(InnerBody());
    assert Proper(Then(Assign(MAXC, Slot(C)), Done));
    assert Proper(Finish());
    hide InnerBody, Finish;
    assert Proper(Then(Loops(InnerBody()), Finish()));
    assert Proper(Outer());
    hide Outer;
    assert Proper(OuterBody());
  }

  // ----- its run -----

  /** The operation arrays as laid out on the grid, and the cycles so far. */
  ghost predicate Arrays(ops: seq<Op>, slots: map<int, int>, cyc: seq<int>) {
    && |ops| <= NMAX && |cyc| == |ops| && N in slots && slots[N] == |ops|
    && forall i :: 0 <= i < |ops| ==> Row(ops[i], cyc[i], i, slots)
  }

  predicate Row(op: Op, cycle: int, i: int, slots: map<int, int>) {
    && DEST_B + i in slots && slots[DEST_B + i] == op.dest
    && A_B + i in slots && slots[A_B + i] == op.a
    && B_B + i in slots && slots[B_B + i] == op.b
    && CYC_B + i in slots && slots[CYC_B + i] == cycle
  }

  /** The slots the loader grants to the scheduler. */
  ghost predicate Granted(g: set<int>, n: nat) {
    {I, J, C, TA, TB, TC, MAXC} <= g && forall s :: CYC_B <= s < CYC_B + n ==> s in g
  }

  /** Scalar slots I, J, C, MAXC hold these values. */
  ghost predicate Scalars(slots: map<int, int>, i: int, j: int, r: int, mx: int) {
    && I in slots && slots[I] == i && J in slots && slots[J] == j
    && C in slots && slots[C] == r && MAXC in slots && slots[MAXC] == mx
  }

  lemma ScalarWrite(ops: seq<Op>, slots: map<int, int>, cyc: seq<int>, s: int, v: int)
    requires Arrays(ops, slots, cyc) && 2 <= s <= 8
    ensures Arrays(ops, slots[s := v], cyc)
  {
    assert forall i :: 0 <= i < |ops| ==> Row(ops[i], cyc[i], i, slots);
  }

  lemma ArrayCells(ops: seq<Op>, slots: map<int, int>, cyc: seq<int>, i: nat)
    requires Arrays(ops, slots, cyc) && i < |ops|
    ensures |cyc| == |ops| <= NMAX && N in slots && slots[N] == |ops|
    ensures DEST_B + i in slots && slots[DEST_B + i] == ops[i].dest
    ensures A_B + i in slots && slots[A_B + i] == ops[i].a
    ensures B_B + i in slots && slots[B_B + i] == ops[i].b
    ensures CYC_B + i in slots && slots[CYC_B + i] == cyc[i]
  {
    assert Row(ops[i], cyc[i], i, slots);
  }

  lemma CellVal(slots: map<int, int>, base: int, s: int)
    requires 0 <= s && s in slots && base + slots[s] in slots && 0 <= base + slots[s]
    ensures Val(Cell(base, s), slots) == Some(slots[base + slots[s]]) && Cost(Cell(base, s)) == 4
  {
    assert Val(Add(Const(base), Slot(s)), slots) == Some(base + slots[s]);
    assert Cost(Add(Const(base), Slot(s))) == 3;
  }

  function Max(x: int, y: int): int {
    if x > y then x else y
  }

  // ----- its ticks -----

  /** Raising the ready cycle r past one of c, or seeing that it is. */
  function RaiseTicks(c: int, r: int): nat {
    if c + 1 > r then 13 else 11
  }

  /** One look back from p at the operation o, whose cycle is c. */
  function LookTicks(o: Op, p: Op, c: int, r: int): nat {
    23 + if o.dest == p.a then RaiseTicks(c, r) else if o.dest == p.b then 4 + RaiseTicks(c, r) else 4
  }

  /** The inner loop of operation i from j on. */
  function InnerTicks(ops: seq<Op>, i: nat, j: nat): nat
    requires j <= i < |ops|
    decreases i - j
  {
    if j == i then 6
    else 5 + LookTicks(ops[j], ops[i], Cycle(ops, j), Latest(ops, i, j)) + InnerTicks(ops, i, j + 1)
  }

  function FinishTicks(r: int, mx: int): nat {
    if r > mx then 15 else 13
  }

  function OuterTicks(ops: seq<Op>, i: nat): nat
    requires i < |ops|
  {
    5 + InnerTicks(ops, i, 0) + FinishTicks(Cycle(ops, i), Peak(ops, i))
  }

  /** The outer loop from operation i on. */
  function LoopTicks(ops: seq<Op>, i: nat): nat
    requires i <= |ops|
    decreases |ops| - i
  {
    if i == |ops| then 6 else 5 + OuterTicks(ops, i) + LoopTicks(ops, i + 1)
  }

  /** Every tick of the program over these operations. */
  function Ticks(ops: seq<Op>): nat {
    LoopTicks(ops, 0) + 7
  }

  /** r fell through with exactly left budget and this output. */
  ghost predicate Took(r: Ran, left: int, out: seq<int>) {
    r.Some? && r.value.2.Fell? && r.value.1 == left && r.value.0.out == out
  }

  lemma UpdateRuns(g: set<int>, ops: seq<Op>, m: Mem, cyc: seq<int>, i: nat, j: nat, r: int, mx: int, gas: nat)
    requires Arrays(ops, m.slots, cyc) && Granted(g, |ops|) && j < |ops| == |cyc| && RaiseTicks(cyc[j], r) <= gas
    requires Scalars(m.slots, i, j, r, mx)
    ensures var x := Sem(g, UpdateR(), m, gas);
            && Took(x, gas - RaiseTicks(cyc[j], r), m.out) && Arrays(ops, x.value.0.slots, cyc)
            && Scalars(x.value.0.slots, i, j, Max(r, cyc[j] + 1), mx)
  {
    hide Arrays, Sem, Val, Cost;
    ArrayCells(ops, m.slots, cyc, j);
    CellVal(m.slots, CYC_B, J);
    var e := Add(Cell(CYC_B, J), Const(1));
    assert Val(e, m.slots) == Some(cyc[j] + 1) && Cost(e) == 6 by { PlusOne(Cell(CYC_B, J), m.slots); }
    var rest := Then(If(Sub(Slot(TA), Slot(C)), Then(Assign(C, Slot(TA)), Done), Done, Done, 3), Done);
    SemAssign(g, TA, e, rest, m, gas);
    ScalarWrite(ops, m.slots, cyc, TA, cyc[j] + 1);
    var m1 := m.(slots := m.slots[TA := cyc[j] + 1]);
    DiffVal(m1.slots, TA, C);
    SemIf(g, Sub(Slot(TA), Slot(C)), Then(Assign(C, Slot(TA)), Done), Done, Done, Done, m1, gas - 7);
    SemDone(g, m1, gas - 11);
    if cyc[j] + 1 > r {
      SlotVal(m1.slots, TA);
      SemAssign(g, C, Slot(TA), Done, m1, gas - 11);
      ScalarWrite(ops, m1.slots, cyc, C, cyc[j] + 1);
      var m2 := m1.(slots := m1.slots[C := cyc[j] + 1]);
      SemDone(g, m2, gas - 13);
    }
  }

  lemma SecondRuns(g: set<int>, ops: seq<Op>, m: Mem, cyc: seq<int>, i: nat, j: nat, r: int, mx: int, gas: nat)
    requires Arrays(ops, m.slots, cyc) && Granted(g, |ops|) && j < |ops| == |cyc|
    requires Scalars(m.slots, i, j, r, mx) && TA in m.slots && TC in m.slots
    requires 4 + (if m.slots[TA] == m.slots[TC] then RaiseTicks(cyc[j], r) else 0) <= gas
    ensures var x := Sem(g, MatchSecond(), m, gas);
            && Took(x, gas - 4 - (if m.slots[TA] == m.slots[TC] then RaiseTicks(cyc[j], r) else 0), m.out)
            && Arrays(ops, x.value.0.slots, cyc)
            && Scalars(x.value.0.slots, i, j, if m.slots[TA] == m.slots[TC] then Max(r, cyc[j] + 1) else r, mx)
  {
    hide Arrays, Sem, Val, Cost, UpdateR, RaiseTicks;
    DiffVal(m.slots, TA, TC);
    SemIf(g, Sub(Slot(TA), Slot(TC)), Done, UpdateR(), Done, Done, m, gas);
    SemDone(g, m, gas - 4);
    if m.slots[TA] == m.slots[TC] {
      UpdateRuns(g, ops, m, cyc, i, j, r, mx, gas - 4);
      var x := Sem(g, UpdateR(), m, gas - 4).value;
      SemDone(g, x.0, x.1);
    }
  }

  /** One look back: j's cycle counts exactly when i depends on j. */
  lemma LookBackRuns(g: set<int>, ops: seq<Op>, m: Mem, cyc: seq<int>, i: nat, j: nat, r: int, mx: int, gas: nat)
    requires Arrays(ops, m.slots, cyc) && Granted(g, |ops|) && j < i < |ops| == |cyc|
    requires Scalars(m.slots, i, j, r, mx) && LookTicks(ops[j], ops[i], cyc[j], r) <= gas
    ensures var x := Sem(g, DepAndReady(), m, gas);
            && Took(x, gas - LookTicks(ops[j], ops[i], cyc[j], r), m.out) && Arrays(ops, x.value.0.slots, cyc)
            && Scalars(x.value.0.slots, i, j + 1, if Dep(ops, j, i) then Max(r, cyc[j] + 1) else r, mx)
  {
    hide Arrays, Sem, Val, Cost, UpdateR, MatchSecond, Max, RaiseTicks;
    var last := Then(Assign(J, Add(Slot(J), Const(1))), Done);
    var m3 := OperandsRead(g, ops, m, cyc, i, j, r, mx, gas);
    DiffVal(m3.slots, TA, TB);
    SemIf(g, Sub(Slot(TA), Slot(TB)), MatchSecond(), UpdateR(), MatchSecond(), last, m3, gas - 15);
    if ops[j].dest == ops[i].a {
      UpdateRuns(g, ops, m3, cyc, i, j, r, mx, gas - 19);
    } else {
      SecondRuns(g, ops, m3, cyc, i, j, r, mx, gas - 19);
    }
    var x := Sem(g, if ops[j].dest == ops[i].a then UpdateR() else MatchSecond(), m3, gas - 19).value;
    assert Scalars(x.0.slots, i, j, if Dep(ops, j, i) then Max(r, cyc[j] + 1) else r, mx);
    NextVal(x.0.slots, J);
    SemAssign(g, J, Add(Slot(J), Const(1)), Done, x.0, x.1);
    ScalarWrite(ops, x.0.slots, cyc, J, j + 1);
    SemDone(g, x.0.(slots := x.0.slots[J := j + 1]), x.1 - 4);
  }

  /** Both operations' fields are read into scratch cells. */
  lemma OperandsRead(g: set<int>, ops: seq<Op>, m: Mem, cyc: seq<int>, i: nat, j: nat, r: int, mx: int, gas: nat)
      returns (m3: Mem)
    requires Arrays(ops, m.slots, cyc) && Granted(g, |ops|) && j < i < |ops| == |cyc|
    requires Scalars(m.slots, i, j, r, mx) && 15 <= gas
    ensures Arrays(ops, m3.slots, cyc) && Scalars(m3.slots, i, j, r, mx) && m3.out == m.out
    ensures {TA, TB, TC} <= m3.slots.Keys
    ensures m3.slots[TA] == ops[j].dest && m3.slots[TB] == ops[i].a && m3.slots[TC] == ops[i].b
    ensures var last := Then(Assign(J, Add(Slot(J), Const(1))), Done);
            Sem(g, DepAndReady(), m, gas)
            == Sem(g, Then(If(Sub(Slot(TA), Slot(TB)), MatchSecond(), UpdateR(), MatchSecond(), 3), last), m3, gas - 15)
  {
    hide Arrays, Sem, Val, Cost, UpdateR, MatchSecond;
    ArrayCells(ops, m.slots, cyc, j);
    ArrayCells(ops, m.slots, cyc, i);
    var last := Then(Assign(J, Add(Slot(J), Const(1))), Done);
    var test := Then(If(Sub(Slot(TA), Slot(TB)), MatchSecond(), UpdateR(), MatchSecond(), 3), last);
    CellVal(m.slots, DEST_B, J);
    SemAssign(g, TA, Cell(DEST_B, J), Then(Assign(TB, Cell(A_B, I)), Then(Assign(TC, Cell(B_B, I)), test)), m, gas);
    ScalarWrite(ops, m.slots, cyc, TA, ops[j].dest);
    var m1 := m.(slots := m.slots[TA := ops[j].dest]);
    CellVal(m1.slots, A_B, I);
    SemAssign(g, TB, Cell(A_B, I), Then(Assign(TC, Cell(B_B, I)), test), m1, gas - 5);
    ScalarWrite(ops, m1.slots, cyc, TB, ops[i].a);
    var m2 := m1.(slots := m1.slots[TB := ops[i].a]);
    CellVal(m2.slots, B_B, I);
    SemAssign(g, TC, Cell(B_B, I), test, m2, gas - 10);
    ScalarWrite(ops, m2.slots, cyc, TC, ops[i].b);
    m3 := m2.(slots := m2.slots[TC := ops[i].b]);
  }

  /** Cycles already assigned. */
  ghost predicate Settled(ops: seq<Op>, cyc: seq<int>, i: nat) {
    i <= |ops| == |cyc| && forall k :: 0 <= k < i ==> cyc[k] == Cycle(ops, k)
  }

  lemma {:induction false} InnerLoops(g: set<int>, ops: seq<Op>, m: Mem, cyc: seq<int>, i: nat, j: nat, mx: int,
      gas: nat)
    requires Arrays(ops, m.slots, cyc) && Granted(g, |ops|) && Settled(ops, cyc, i)
    requires j <= i < |ops| && InnerTicks(ops, i, j) <= gas
    requires Scalars(m.slots, i, j, Latest(ops, i, j), mx)
    ensures var x := SemLoop(g, InnerBody(), m, gas);
            && Took(x, gas - InnerTicks(ops, i, j), m.out) && Arrays(ops, x.value.0.slots, cyc)
            && Scalars(x.value.0.slots, i, i, Cycle(ops, i), mx)
    decreases i - j
  {
    hide Arrays, Sem, Val, Cost, DepAndReady, Latest, LookTicks;
    DiffVal(m.slots, J, I);
    var brk := Then(Breaks, Done);
    SemIf(g, Sub(Slot(J), Slot(I)), brk, brk, DepAndReady(), Done, m, gas - 1);
    if j == i {
      SemBreak(g, m, gas - 5);
    } else {
      LookBackRuns(g, ops, m, cyc, i, j, Latest(ops, i, j), mx, gas - 5);
      var x := Sem(g, DepAndReady(), m, gas - 5).value;
      SemDone(g, x.0, x.1);
      LatestStep(ops, i, j);
      InnerLoops(g, ops, x.0, cyc, i, j + 1, mx, x.1);
    }
  }

  lemma LatestStep(ops: seq<Op>, i: nat, j: nat)
    requires j < i < |ops|
    ensures Latest(ops, i, j + 1)
            == if Dep(ops, j, i) then Max(Latest(ops, i, j), Cycle(ops, j) + 1) else Latest(ops, i, j)
  {
  }

  lemma CycleWrite(ops: seq<Op>, slots: map<int, int>, cyc: seq<int>, i: nat, v: int)
    requires Arrays(ops, slots, cyc) && i < |ops|
    ensures |cyc| == |ops| && Arrays(ops, slots[CYC_B + i := v], cyc[i := v])
  {
    assert forall k :: 0 <= k < |ops| ==> Row(ops[k], cyc[k], k, slots);
  }

  /** Recording i's cycle and the longest one so far, then moving on. */
  lemma FinishRuns(g: set<int>, ops: seq<Op>, m: Mem, cyc: seq<int>, i: nat, j: int, r: int, mx: int, gas: nat)
    requires Arrays(ops, m.slots, cyc) && Granted(g, |ops|) && i < |ops| && FinishTicks(r, mx) <= gas
    requires Scalars(m.slots, i, j, r, mx)
    ensures |cyc| == |ops|
    ensures var x := Sem(g, Finish(), m, gas);
            && Took(x, gas - FinishTicks(r, mx), m.out) && Arrays(ops, x.value.0.slots, cyc[i := r])
            && Scalars(x.value.0.slots, i + 1, j, r, Max(mx, r))
  {
    hide Arrays, Sem, Val, Cost;
    ArrayCells(ops, m.slots, cyc, i);
    var next := Then(Assign(I, Add(Slot(I), Const(1))), Done);
    var keep := Then(Assign(MAXC, Slot(C)), Done);
    IndexVal(m.slots, CYC_B, I);
    SlotVal(m.slots, C);
    SemPut(g, Add(Const(CYC_B), Slot(I)), Slot(C), Then(If(Sub(Slot(C), Slot(MAXC)), keep, Done, Done, 3), next), m,
        gas);
    CycleWrite(ops, m.slots, cyc, i, r);
    var m1 := m.(slots := m.slots[CYC_B + i := r]);
    DiffVal(m1.slots, C, MAXC);
    SemIf(g, Sub(Slot(C), Slot(MAXC)), keep, Done, Done, next, m1, gas - 5);
    var m2, left := m1, gas - 9;
    if r > mx {
      SlotVal(m1.slots, C);
      SemAssign(g, MAXC, Slot(C), Done, m1, gas - 9);
      ScalarWrite(ops, m1.slots, cyc[i := r], MAXC, r);
      m2, left := m1.(slots := m1.slots[MAXC := r]), gas - 11;
    }
    SemDone(g, m2, left);
    NextVal(m2.slots, I);
    SemAssign(g, I, Add(Slot(I), Const(1)), Done, m2, left);
    ScalarWrite(ops, m2.slots, cyc[i := r], I, i + 1);
    SemDone(g, m2.(slots := m2.slots[I := i + 1]), left - 4);
  }

  lemma OuterRuns(g: set<int>, ops: seq<Op>, m: Mem, cyc: seq<int>, i: nat, mx: int, gas: nat)
    requires Arrays(ops, m.slots, cyc) && Granted(g, |ops|) && Settled(ops, cyc, i) && i < |ops|
    requires I in m.slots && m.slots[I] == i && MAXC in m.slots && m.slots[MAXC] == mx
    requires 5 + InnerTicks(ops, i, 0) + FinishTicks(Cycle(ops, i), mx) <= gas
    ensures var x := Sem(g, Outer(), m, gas);
            && Took(x, gas - 5 - InnerTicks(ops, i, 0) - FinishTicks(Cycle(ops, i), mx), m.out)
            && Arrays(ops, x.value.0.slots, cyc[i := Cycle(ops, i)])
            && Scalars(x.value.0.slots, i + 1, i, Cycle(ops, i), Max(mx, Cycle(ops, i)))
  {
    hide Arrays, Sem, Val, Cost, InnerBody, Finish, SemLoop, InnerTicks, FinishTicks, Cycle;
    var tail := Then(Loops(InnerBody()), Finish());
    ConstVal(m.slots, 0);
    SemAssign(g, C, Const(0), Then(Assign(J, Const(0)), tail), m, gas);
    ScalarWrite(ops, m.slots, cyc, C, 0);
    var m1 := m.(slots := m.slots[C := 0]);
    ConstVal(m1.slots, 0);
    SemAssign(g, J, Const(0), tail, m1, gas - 2);
    ScalarWrite(ops, m1.slots, cyc, J, 0);
    var m2 := m1.(slots := m1.slots[J := 0]);
    InnerLoops(g, ops, m2, cyc, i, 0, mx, gas - 5);
    SemLoopVerb(g, InnerBody(), Finish(), m2, gas - 4);
    var x := SemLoop(g, InnerBody(), m2, gas - 5).value;
    FinishRuns(g, ops, x.0, cyc, i, i, Cycle(ops, i), mx, x.1);
  }

  /** At most so many ticks from the outer loop's i-th turn on. */
  function Work(i: nat, n: nat): nat
    requires i <= n
    decreases n - i
  {
    if i == n then 6 else 45 * i + 31 + Work(i + 1, n)
  }

  /** The longest chain among the first k operations. */
  function Peak(ops: seq<Op>, k: nat): int
    requires k <= |ops|
  {
    if k == 0 then 0 else Max(Peak(ops, k - 1), Cycle(ops, k - 1))
  }

  lemma {:induction false} OuterLoops(g: set<int>, ops: seq<Op>, m: Mem, cyc: seq<int>, i: nat, gas: nat)
      returns (cyc': seq<int>)
    requires Arrays(ops, m.slots, cyc) && Granted(g, |ops|) && i <= |ops| && Settled(ops, cyc, i)
             && LoopTicks(ops, i) <= gas
    requires I in m.slots && m.slots[I] == i && MAXC in m.slots && m.slots[MAXC] == Peak(ops, i)
    ensures var x := SemLoop(g, OuterBody(), m, gas);
            && Took(x, gas - LoopTicks(ops, i), m.out) && Arrays(ops, x.value.0.slots, cyc')
            && Settled(ops, cyc', |ops|)
            && MAXC in x.value.0.slots && x.value.0.slots[MAXC] == Peak(ops, |ops|)
    decreases |ops| - i
  {
    hide Arrays, Sem, Val, Cost, Outer, Cycle, InnerTicks, FinishTicks;
    SizeCell(ops, m.slots, cyc);
    DiffVal(m.slots, I, N);
    var brk := Then(Breaks, Done);
    SemIf(g, Sub(Slot(I), Slot(N)), brk, brk, Outer(), Done, m, gas - 1);
    if i == |ops| {
      SemBreak(g, m, gas - 5);
      cyc' := cyc;
    } else {
      OuterRuns(g, ops, m, cyc, i, Peak(ops, i), gas - 5);
      var x := Sem(g, Outer(), m, gas - 5).value;
      SemDone(g, x.0, x.1);
      cyc' := OuterLoops(g, ops, x.0, cyc[i := Cycle(ops, i)], i + 1, x.1);
    }
  }

  lemma SizeCell(ops: seq<Op>, slots: map<int, int>, cyc: seq<int>)
    requires Arrays(ops, slots, cyc)
    ensures N in slots && slots[N] == |ops|
  {
  }

  /** At least so many. */
  function LeastWork(i: nat, n: nat): nat
    requires i <= n
    decreases n - i
  {
    if i == n then 6 else 32 * i + 29 + LeastWork(i + 1, n)
  }

  lemma {:induction false} InnerBounds(ops: seq<Op>, i: nat, j: nat)
    requires j <= i < |ops|
    ensures 32 * (i - j) + 6 <= InnerTicks(ops, i, j) <= 45 * (i - j) + 6
    decreases i - j
  {
    hide Cycle, Latest;
    if j < i {
      InnerBounds(ops, i, j + 1);
    }
  }

  lemma {:induction false} LoopBounds(ops: seq<Op>, i: nat)
    requires i <= |ops|
    ensures LeastWork(i, |ops|) <= LoopTicks(ops, i) <= Work(i, |ops|)
    decreases |ops| - i
  {
    hide Cycle, Peak, InnerTicks;
    if i < |ops| {
      InnerBounds(ops, i, 0);
      LoopBounds(ops, i + 1);
    }
  }

  /** The two bounds in closed form, quadratic in the operations. */
  lemma {:induction false} WorkClosed(i: nat, n: nat)
    requires i <= n
    ensures 2 * Work(i, n) == 45 * (n * (n - 1) - i * (i - 1)) + 62 * (n - i) + 12
    ensures 2 * LeastWork(i, n) == 32 * (n * (n - 1) - i * (i - 1)) + 58 * (n - i) + 12
    decreases n - i
  {
    if i < n {
      WorkClosed(i + 1, n);
      assert (i + 1) * i - i * (i - 1) == 2 * i;
    }
  }

  lemma MulMono(a: nat, b: nat, c: nat)
    requires a <= b
    ensures a * c <= b * c
  {
  }

  const FIXED := 50_000_000

  /** The fixed budget of the runner is enough for any 1490 operations and for no 1768. */
  lemma FixedBudget(ops: seq<Op>)
    ensures |ops| <= 1490 ==> Ticks(ops) <= FIXED
    ensures |ops| >= 1768 ==> Ticks(ops) > FIXED
  {
    hide Work, LeastWork, LoopTicks;
    var n := |ops|;
    LoopBounds(ops, 0);
    WorkClosed(0, n);
    if 0 < n <= 1490 {
      MulMono(n, 1490, n - 1);
    }
    if n >= 1768 {
      MulMono(1768, n, 1767);
      MulMono(1767, n - 1, n);
    }
  }

  /** Run on the walker with a budget of at least its ticks, over any operation list
      the arrays hold, the program leaves every operation's cycle in its CYC cell and
      the longest chain in MAXC, takes exactly those ticks, and touches neither stack
      nor output. */
  lemma SchedulerRuns(env: Env, ops: seq<Op>, slots: map<int, int>, cyc: seq<int>, st: State)
      returns (st': State, slots': map<int, int>)
    requires PROG in env.programs && env.programs[PROG] == SchedulerProgram() && env.attached
    requires Arrays(ops, slots, cyc) && Granted(Grants(env), |ops|)
    requires st.grid == GridOf(slots) && st.steps == 0 && Ticks(ops) <= env.maxSteps
    ensures CallSlot(env, PROG, st) == (st', Fall(0))
    ensures st'.stack == st.stack && st'.output == st.output && st'.steps == Ticks(ops)
    ensures st'.grid == GridOf(slots') && MAXC in slots' && slots'[MAXC] == Peak(ops, |ops|)
    ensures forall i :: CYC_B <= i < CYC_B + |ops| ==> i in slots' && slots'[i] == Cycle(ops, i - CYC_B)
  {
    hide Arrays, Sem, Val, Cost, OuterBody, SemLoop, GridOf, Flat, CallSlot, LoopTicks;
    var g := Grants(env);
    var m := Mem(slots, st.output);
    var gas := env.maxSteps - 1;
    var tail := Then(Loops(OuterBody()), Done);
    ConstVal(slots, 0);
    SemAssign(g, I, Const(0), Then(Assign(MAXC, Const(0)), tail), m, gas);
    ScalarWrite(ops, slots, cyc, I, 0);
    var m1 := m.(slots := slots[I := 0]);
    ConstVal(m1.slots, 0);
    SemAssign(g, MAXC, Const(0), tail, m1, gas - 2);
    ScalarWrite(ops, m1.slots, cyc, MAXC, 0);
    var m2 := m1.(slots := m1.slots[MAXC := 0]);
    SizesAgree(ops, slots, cyc);
    var cyc' := OuterLoops(g, ops, m2, cyc, 0, gas - 5);
    SemLoopVerb(g, OuterBody(), Done, m2, gas - 4);
    var x := SemLoop(g, OuterBody(), m2, gas - 5).value;
    SemDone(g, x.0, x.1);
    SchedulerProper();
    st' := ProgramWalks(env, PROG, SchedulerBlock(), m, st);
    slots' := x.0.slots;
    forall i | CYC_B <= i < CYC_B + |ops| ensures i in slots' && slots'[i] == Cycle(ops, i - CYC_B) {
      ArrayCells(ops, slots', cyc', i - CYC_B);
    }
  }

  /** The program finishes exactly when its ticks are within the budget; with a smaller
      one it is cut off. */
  lemma SchedulerFinishes(env: Env, ops: seq<Op>, slots: map<int, int>, cyc: seq<int>, st: State)
    requires PROG in env.programs && env.programs[PROG] == SchedulerProgram() && env.attached
    requires Arrays(ops, slots, cyc) && Granted(Grants(env), |ops|)
    requires st.grid == GridOf(slots) && st.steps == 0
    ensures CallSlot(env, PROG, st).1 == if Ticks(ops) <= env.maxSteps then Fall(0) else Failed(OutOfGas)
  {
    hide *;
    if Ticks(ops) <= env.maxSteps {
      var end, slots' := SchedulerRuns(env, ops, slots, cyc, st);
    } else {
      var more := Budgets.Budgeted(env, Ticks(ops));
      SameButBudget(env, Ticks(ops));
      var end, slots' := SchedulerRuns(more, ops, slots, cyc, st);
      Budgets.CallCut(more, env.maxSteps, PROG, st);
      CutLate(env, more, st, end);
    }
  }

  lemma SameButBudget(env: Env, max: nat)
    ensures var more := Budgets.Budgeted(env, max);
            && more.maxSteps == max && more.programs == env.programs && more.attached == env.attached
            && Grants(more) == Grants(env) && Budgets.Budgeted(more, env.maxSteps) == env
  {
  }

  lemma CutLate(env: Env, more: Env, st: State, end: State)
    requires Budgets.Budgeted(more, env.maxSteps) == env && end.steps > env.maxSteps
    requires Budgets.CutAt(env.maxSteps, (end, Fall(0)), CallSlot(env, PROG, st))
    ensures CallSlot(env, PROG, st).1 == Failed(OutOfGas)
  {
    hide CallSlot;
  }

  lemma SizesAgree(ops: seq<Op>, slots: map<int, int>, cyc: seq<int>)
    requires Arrays(ops, slots, cyc)
    ensures |cyc| == |ops|
  {
  }
}
