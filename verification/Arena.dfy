/** How the arena of the native code mirrors the walker's state, and how the
    code sequences the compiler emits act on it. */
module Arena {
  import opened Lexicon
  import opened Interp
  import opened Native
  import opened Backend
  import opened Linking

  /** What a run of linked code is compared with: the walker's settings, the
      object code and its image. */
  datatype Ctx = Ctx(env: Env, obj: Obj, img: seq<Byte>)

  const OUT_CELL := 2 * NSLOT
  const COUNT_CELL := OUT_CELL + NOUT
  const HOLDER_CELL := COUNT_CELL + 1
  const TOP_CELL := HOLDER_CELL + 1 + VSTACK_N

  function GrantWord(env: Env, slot: int): int {
    if slot in env.grants then env.grants[slot] + 1 else 0
  }

  ghost predicate StackAt(mem: seq<int>, stack: seq<int>) {
    && |mem| == TOP_CELL && |stack| <= STACK_CAP
    && forall k :: 0 <= k < |stack| ==> mem[TOP_CELL - 1 - k] == stack[k] && InWord(stack[k])
  }

  ghost predicate OutputAt(mem: seq<int>, output: seq<int>) {
    && |mem| == TOP_CELL && |output| <= OUTPUT_CAP && mem[COUNT_CELL] == |output|
    && forall k :: 0 <= k < |output| ==> mem[OUT_CELL + k] == output[k]
  }

  /** The integer READ finds in a slot; an unset slot has a zero cell. */
  function SlotWord(grid: map<int, seq<Token>>, s: int): int {
    if s in grid && ParseInts(grid[s]) != [] then ParseInts(grid[s])[0] else 0
  }

  ghost predicate SlotsAt(mem: seq<int>, grid: map<int, seq<Token>>) {
    |mem| == TOP_CELL && forall s :: 0 <= s < NSLOT ==> mem[s] == SlotWord(grid, s)
  }

  ghost predicate GatesAt(mem: seq<int>, env: Env) {
    && |mem| == TOP_CELL && mem[HOLDER_CELL] == env.holder
    && forall s :: 0 <= s < NSLOT ==> mem[NSLOT + s] == GrantWord(env, s)
  }

  ghost predicate Mirrors(env: Env, st: State, c: Cpu) {
    && StackAt(c.mem, st.stack) && OutputAt(c.mem, st.output) && SlotsAt(c.mem, st.grid) && GatesAt(c.mem, env)
    && c.r15 == 0 && c.r13 == 8 * (TOP_CELL - |st.stack|)
  }

  predicate Frame(c: Cpu, c': Cpu) {
    c'.stk == c.stk && c'.r14 == c.r14
  }

  /** o is an initial part of the finished object code f. */
  ghost predicate Within(o: Obj, f: Obj) {
    && o.b <= f.b && o.fixups <= f.fixups
    && forall l :: l in o.labels ==> l in f.labels && f.labels[l] == o.labels[l]
  }

  lemma WithinTrans(a: Obj, b: Obj, c: Obj)
    requires Within(a, b) && Within(b, c)
    ensures Within(a, c)
  {
  }

  lemma GrowsWithin(base: nat, a: Obj, b: Obj, f: Obj)
    requires Grows(base, a, b) && Within(b, f)
    ensures Within(a, f)
  {
  }

  lemma LabelWithin(o: Obj, f: Obj, l: Label)
    requires Within(o, f) && l in o.labels
    ensures l in f.labels && f.labels[l] == o.labels[l]
  {
  }

  // ----- single instructions -----

  lemma EmitWithin(o: Obj, i: Instr, f: Obj)
    requires Within(Emit(o, i), f)
    ensures Within(o, f)
  {
  }

  lemma JumpWithin(o: Obj, i: Instr, l: Label, f: Obj)
    requires Within(Jump(o, i, l), f)
    ensures Within(o, f)
  {
    assert o.b <= Jump(o, i, l).b;
  }

  lemma StepEmit(x: Ctx, o: Obj, i: Instr, c: Cpu)
    requires Linked(x.obj, x.img) && Within(Emit(o, i), x.obj) && !IsJump(i)
    requires c.pc == |o.b|
    ensures Step(x.img, c) == Effect(i, c, |Emit(o, i).b|, |Emit(o, i).b|)
    ensures Reaches(x.img, c, Effect(i, c, |Emit(o, i).b|, |Emit(o, i).b|))
  {
    hide Effect;
    var e := Emit(o, i);
    assert e.b[|o.b|] == Encode(i)[0] == Head(i);
    assert x.obj.b[|o.b|] == e.b[|o.b|];
    ReachesStep(x.img, c);
  }

  lemma StepJump(x: Ctx, o: Obj, i: Instr, l: Label, c: Cpu)
    requires Linked(x.obj, x.img) && Within(Jump(o, i, l), x.obj) && IsJump(i)
    requires c.pc == |o.b|
    ensures l in x.obj.labels
    ensures Step(x.img, c) == Effect(i, c, |Jump(o, i, l).b|, x.obj.labels[l])
    ensures Reaches(x.img, c, Effect(i, c, |Jump(o, i, l).b|, x.obj.labels[l]))
  {
    hide Effect, Operand;
    var e := Jump(o, i, l);
    var k := |o.fixups|;
    assert e.b[|o.b|] == (o.b + Encode(i))[|o.b|] == Encode(i)[0] == Head(i);
    assert x.obj.b[|o.b|] == e.b[|o.b|];
    assert e.fixups[k] == (|o.b| + Size(i), l);
    assert x.obj.fixups[k] == e.fixups[k];
    assert LandsOn(x.img, |o.b| + Size(i), l, x.obj.labels);
    ReachesStep(x.img, c);
  }

  // ----- memory -----

  lemma PushCell(mem: seq<int>, env: Env, st: State, v: int)
    requires StackAt(mem, st.stack) && OutputAt(mem, st.output) && SlotsAt(mem, st.grid) && GatesAt(mem, env)
    requires InWord(v) && |st.stack| < STACK_CAP
    ensures var m := mem[TOP_CELL - 1 - |st.stack| := v];
            StackAt(m, st.stack + [v]) && OutputAt(m, st.output) && SlotsAt(m, st.grid) && GatesAt(m, env)
  {
    hide ParseInts;
    var m := mem[TOP_CELL - 1 - |st.stack| := v];
    assert forall q :: 0 <= q < |mem| && q != TOP_CELL - 1 - |st.stack| ==> m[q] == mem[q];
  }

  lemma OutputCells(mem: seq<int>, env: Env, st: State, v: int)
    requires StackAt(mem, st.stack) && OutputAt(mem, st.output) && SlotsAt(mem, st.grid) && GatesAt(mem, env)
    requires |st.output| < OUTPUT_CAP
    ensures var m := mem[OUT_CELL + |st.output| := v][COUNT_CELL := |st.output| + 1];
            StackAt(m, st.stack) && OutputAt(m, st.output + [v]) && SlotsAt(m, st.grid) && GatesAt(m, env)
  {
    hide ParseInts;
    var m := mem[OUT_CELL + |st.output| := v][COUNT_CELL := |st.output| + 1];
    assert forall q :: 0 <= q < |mem| && q != OUT_CELL + |st.output| && q != COUNT_CELL ==> m[q] == mem[q];
  }

  lemma SlotCell(mem: seq<int>, env: Env, st: State, s: int, v: int)
    requires StackAt(mem, st.stack) && OutputAt(mem, st.output) && SlotsAt(mem, st.grid) && GatesAt(mem, env)
    requires 0 <= s < NSLOT
    ensures var m := mem[s := v];
            StackAt(m, st.stack) && OutputAt(m, st.output)
            && SlotsAt(m, st.grid[s := EncodeInteger(v) + [RECORD]]) && GatesAt(m, env)
  {
    hide ParseInts, EncodeInteger;
    StoredReadsBack(v);
    var m := mem[s := v];
    assert forall q :: 0 <= q < |mem| && q != s ==> m[q] == mem[q];
  }

  lemma WordId(v: int)
    requires InWord(v)
    ensures Word(v) == v
  {
  }

  // ----- the sequences the compiler emits -----

  lemma VPushRuns(x: Ctx, o: Obj, st: State, c: Cpu) returns (c': Cpu)
    requires Linked(x.obj, x.img) && Within(VPush(o), x.obj) && c.pc == |o.b|
    requires Mirrors(x.env, st, c) && InWord(c.rax) && |st.stack| < STACK_CAP
    ensures Reaches(x.img, c, c') && c'.pc == |VPush(o).b| && Frame(c, c') && c'.rax == c.rax
    ensures Mirrors(x.env, Push(st, c.rax), c')
  {
    hide Linked, Within, Reaches, StackAt, OutputAt, SlotsAt, GatesAt;
    var o1 := Emit(o, SubR13);
    EmitWithin(o1, StoreTop, x.obj);
    StepEmit(x, o, SubR13, c);
    var c1 := Effect(SubR13, c, |o1.b|, |o1.b|);
    StepEmit(x, o1, StoreTop, c1);
    MemSize(c.mem, st.stack);
    c' := Effect(StoreTop, c1, |VPush(o).b|, |VPush(o).b|);
    assert c1.r13 / 8 == TOP_CELL - 1 - |st.stack|;
    PushCell(c.mem, x.env, st, c.rax);
    ReachesTrans(x.img, c, c1, c');
  }

  lemma MemSize(mem: seq<int>, stack: seq<int>)
    requires StackAt(mem, stack)
    ensures |mem| == TOP_CELL && |stack| <= STACK_CAP
  {
  }

  lemma PopCell(mem: seq<int>, st: State)
    requires StackAt(mem, st.stack) && st.stack != []
    ensures StackAt(mem, Pop(st).stack) && mem[TOP_CELL - |st.stack|] == Top(st) && InWord(Top(st))
    ensures Pop(st).output == st.output && Pop(st).grid == st.grid
  {
    var k := |st.stack| - 1;
    assert mem[TOP_CELL - 1 - k] == st.stack[k];
  }

  lemma VPopRaxRuns(x: Ctx, o: Obj, st: State, c: Cpu) returns (c': Cpu)
    requires Linked(x.obj, x.img) && Within(VPopRax(o), x.obj) && c.pc == |o.b|
    requires Mirrors(x.env, st, c) && st.stack != []
    ensures Reaches(x.img, c, c') && c'.pc == |VPopRax(o).b| && Frame(c, c')
    ensures c'.rax == Top(st) && InWord(c'.rax) && c'.rbx == c.rbx
    ensures Mirrors(x.env, Pop(st), c')
  {
    hide Linked, Within, Reaches, StackAt, OutputAt, SlotsAt, GatesAt;
    var o1 := Emit(o, LoadTop);
    EmitWithin(o1, AddR13, x.obj);
    StepEmit(x, o, LoadTop, c);
    MemSize(c.mem, st.stack);
    PopCell(c.mem, st);
    assert c.r13 / 8 == TOP_CELL - |st.stack|;
    var c1 := Effect(LoadTop, c, |o1.b|, |o1.b|);
    StepEmit(x, o1, AddR13, c1);
    c' := Effect(AddR13, c1, |VPopRax(o).b|, |VPopRax(o).b|);
    ReachesTrans(x.img, c, c1, c');
  }

  lemma VPopRbxRuns(x: Ctx, o: Obj, st: State, c: Cpu) returns (c': Cpu)
    requires Linked(x.obj, x.img) && Within(VPopRbx(o), x.obj) && c.pc == |o.b|
    requires Mirrors(x.env, st, c) && st.stack != []
    ensures Reaches(x.img, c, c') && c'.pc == |VPopRbx(o).b| && Frame(c, c')
    ensures c'.rbx == Top(st) && InWord(c'.rbx)
    ensures Mirrors(x.env, Pop(st), c')
  {
    hide Linked, Within, Reaches, StackAt, OutputAt, SlotsAt, GatesAt;
    var o1 := Emit(o, LoadTopRbx);
    EmitWithin(o1, AddR13, x.obj);
    StepEmit(x, o, LoadTopRbx, c);
    MemSize(c.mem, st.stack);
    PopCell(c.mem, st);
    assert c.r13 / 8 == TOP_CELL - |st.stack|;
    var c1 := Effect(LoadTopRbx, c, |o1.b|, |o1.b|);
    StepEmit(x, o1, AddR13, c1);
    c' := Effect(AddR13, c1, |VPopRbx(o).b|, |VPopRbx(o).b|);
    ReachesTrans(x.img, c, c1, c');
  }

  lemma BinaryRuns(x: Ctx, o: Obj, t: Token, st: State, c: Cpu) returns (c': Cpu)
    requires PLUS <= t <= MUL
    requires Linked(x.obj, x.img) && Within(Binary(o, ArithOp(t)), x.obj) && c.pc == |o.b|
    requires Mirrors(x.env, st, c) && 2 <= |st.stack|
    requires InWord(Apply(t, Top(Pop(st)), Top(st)))
    ensures Reaches(x.img, c, c') && c'.pc == |Binary(o, ArithOp(t)).b| && Frame(c, c')
            && c'.rax == Apply(t, Top(Pop(st)), Top(st))
    ensures Mirrors(x.env, Push(Pop(Pop(st)), Apply(t, Top(Pop(st)), Top(st))), c')
  {
    hide Linked, Within, Reaches, StackAt, OutputAt, SlotsAt, GatesAt, VPush, VPopRax, VPopRbx, Word;
    var o1 := VPopRbx(o);
    var o2 := VPopRax(o1);
    var o3 := Emit(o2, ArithOp(t));
    BinaryWithin(o, ArithOp(t), x.obj);
    var c1 := VPopRbxRuns(x, o, st, c);
    var c2 := VPopRaxRuns(x, o1, Pop(st), c1);
    StepEmit(x, o2, ArithOp(t), c2);
    var c3 := Effect(ArithOp(t), c2, |o3.b|, |o3.b|);
    WordId(Apply(t, Top(Pop(st)), Top(st)));
    assert c3.rax == Apply(t, Top(Pop(st)), Top(st));
    PopTwice(c.mem, st);
    c' := VPushRuns(x, o3, Pop(Pop(st)), c3);
    ReachesTrans(x.img, c, c1, c2);
    ReachesTrans(x.img, c, c2, c3);
    ReachesTrans(x.img, c, c3, c');
  }

  lemma PopTwice(mem: seq<int>, st: State)
    requires StackAt(mem, st.stack) && 2 <= |st.stack|
    ensures |Pop(Pop(st)).stack| < STACK_CAP
  {
  }

  lemma BinaryWithin(o: Obj, op: Instr, f: Obj)
    requires Within(Binary(o, op), f)
    ensures Within(VPopRbx(o), f) && Within(VPopRax(VPopRbx(o)), f)
    ensures Within(Emit(VPopRax(VPopRbx(o)), op), f) && Within(VPush(Emit(VPopRax(VPopRbx(o)), op)), f)
  {
    hide Within;
    var o1 := VPopRbx(o);
    var o2 := VPopRax(o1);
    var o3 := Emit(o2, op);
    EmitWithin(Emit(o3, SubR13), StoreTop, f);
    EmitWithin(o3, SubR13, f);
    EmitWithin(o2, op, f);
    EmitWithin(Emit(o1, LoadTop), AddR13, f);
    EmitWithin(o1, LoadTop, f);
  }

  lemma CountAt(mem: seq<int>, output: seq<int>)
    requires OutputAt(mem, output)
    ensures |mem| == TOP_CELL && mem[COUNT_CELL] == |output|
  {
  }

  lemma EmitOutWithin(o: Obj, f: Obj)
    requires Within(EmitOut(o), f)
    ensures var o1 := VPopRax(o);
            var o2 := Emit(o1, LoadRcx(OFF_OUTCNT));
            var o3 := Emit(o2, StoreIndexed(OFF_OUT));
            Within(o1, f) && Within(o2, f) && Within(o3, f) && Within(Emit(o3, IncRcx), f)
  {
    hide Within;
    var o1 := VPopRax(o);
    var o2 := Emit(o1, LoadRcx(OFF_OUTCNT));
    var o3 := Emit(o2, StoreIndexed(OFF_OUT));
    var o4 := Emit(o3, IncRcx);
    EmitWithin(o4, StoreRcx(OFF_OUTCNT), f);
    EmitWithin(o3, IncRcx, f);
    EmitWithin(o2, StoreIndexed(OFF_OUT), f);
    EmitWithin(o1, LoadRcx(OFF_OUTCNT), f);
  }

  lemma OutStoreRuns(x: Ctx, o1: Obj, n: nat, c1: Cpu) returns (c': Cpu)
    requires Within(Emit(o1, LoadRcx(OFF_OUTCNT)), x.obj)
    requires Within(Emit(Emit(o1, LoadRcx(OFF_OUTCNT)), StoreIndexed(OFF_OUT)), x.obj)
    requires Linked(x.obj, x.img) && c1.pc == |o1.b|
    requires |c1.mem| == TOP_CELL && c1.mem[COUNT_CELL] == n < OUTPUT_CAP && c1.r15 == 0
    ensures Reaches(x.img, c1, c')
    ensures c' == c1.(pc := |Emit(Emit(o1, LoadRcx(OFF_OUTCNT)), StoreIndexed(OFF_OUT)).b|,
                      rcx := n, mem := c1.mem[OUT_CELL + n := c1.rax])
  {
    hide Linked, Within, Reaches, Int32, Emit;
    Disp(OFF_OUTCNT);
    Disp(OFF_OUT);
    var o2 := Emit(o1, LoadRcx(OFF_OUTCNT));
    var o3 := Emit(o2, StoreIndexed(OFF_OUT));
    StepEmit(x, o1, LoadRcx(OFF_OUTCNT), c1);
    var c2 := c1.(pc := |o2.b|, rcx := n);
    assert OFF_OUTCNT / 8 == COUNT_CELL;
    assert Effect(LoadRcx(OFF_OUTCNT), c1, |o2.b|, |o2.b|) == c2;
    StepEmit(x, o2, StoreIndexed(OFF_OUT), c2);
    assert (8 * n + OFF_OUT) / 8 == OUT_CELL + n;
    c' := Effect(StoreIndexed(OFF_OUT), c2, |o3.b|, |o3.b|);
    ReachesTrans(x.img, c1, c2, c');
  }

  lemma OutCountRuns(x: Ctx, o3: Obj, c3: Cpu) returns (c': Cpu)
    requires Within(Emit(o3, IncRcx), x.obj) && Within(Emit(Emit(o3, IncRcx), StoreRcx(OFF_OUTCNT)), x.obj)
    requires Linked(x.obj, x.img) && c3.pc == |o3.b|
    requires |c3.mem| == TOP_CELL && 0 <= c3.rcx < OUTPUT_CAP && c3.r15 == 0
    ensures Reaches(x.img, c3, c')
    ensures c' == c3.(pc := |Emit(Emit(o3, IncRcx), StoreRcx(OFF_OUTCNT)).b|,
                      rcx := c3.rcx + 1, mem := c3.mem[COUNT_CELL := c3.rcx + 1])
  {
    hide Linked, Within, Reaches, Int32, Word, Emit;
    Disp(OFF_OUTCNT);
    WordId(c3.rcx + 1);
    var o4 := Emit(o3, IncRcx);
    StepEmit(x, o3, IncRcx, c3);
    var c4 := c3.(pc := |o4.b|, rcx := c3.rcx + 1);
    assert Effect(IncRcx, c3, |o4.b|, |o4.b|) == c4;
    StepEmit(x, o4, StoreRcx(OFF_OUTCNT), c4);
    assert OFF_OUTCNT / 8 == COUNT_CELL;
    var o5 := Emit(o4, StoreRcx(OFF_OUTCNT));
    c' := Effect(StoreRcx(OFF_OUTCNT), c4, |o5.b|, |o5.b|);
    ReachesTrans(x.img, c3, c4, c');
  }

  lemma EmitOutRuns(x: Ctx, o: Obj, st: State, c: Cpu) returns (c': Cpu)
    requires Linked(x.obj, x.img) && Within(EmitOut(o), x.obj) && c.pc == |o.b|
    requires Mirrors(x.env, st, c) && st.stack != [] && |st.output| < OUTPUT_CAP
    ensures Reaches(x.img, c, c') && c'.pc == |EmitOut(o).b| && Frame(c, c') && c'.rax == Top(st)
    ensures Mirrors(x.env, Output(Pop(st), Top(st)), c')
  {
    hide Linked, Within, Reaches, StackAt, OutputAt, SlotsAt, GatesAt, VPopRax, Emit;
    EmitOutWithin(o, x.obj);
    var c1 := VPopRaxRuns(x, o, st, c);
    CountAt(c1.mem, st.output);
    var c2 := OutStoreRuns(x, VPopRax(o), |st.output|, c1);
    c' := OutCountRuns(x, Emit(Emit(VPopRax(o), LoadRcx(OFF_OUTCNT)), StoreIndexed(OFF_OUT)), c2);
    OutputCells(c1.mem, x.env, Pop(st), c1.rax);
    ReachesTrans(x.img, c, c1, c2);
    ReachesTrans(x.img, c, c2, c');
  }

  lemma NumberRuns(x: Ctx, o: Obj, v: int, st: State, c: Cpu) returns (c': Cpu)
    requires Linked(x.obj, x.img) && Within(VPush(Emit(o, MovRaxImm(v))), x.obj) && c.pc == |o.b|
    requires Mirrors(x.env, st, c) && InWord(v) && |st.stack| < STACK_CAP
    ensures Reaches(x.img, c, c') && c'.pc == |VPush(Emit(o, MovRaxImm(v))).b| && Frame(c, c') && c'.rax == v
    ensures Mirrors(x.env, Push(st, v), c')
  {
    hide Linked, Within, Reaches, StackAt, OutputAt, SlotsAt, GatesAt, Word;
    var o1 := Emit(o, MovRaxImm(v));
    EmitWithin(Emit(o1, SubR13), StoreTop, x.obj);
    EmitWithin(o1, SubR13, x.obj);
    StepEmit(x, o, MovRaxImm(v), c);
    WordId(v);
    var c1 := Effect(MovRaxImm(v), c, |o1.b|, |o1.b|);
    c' := VPushRuns(x, o1, st, c1);
    ReachesTrans(x.img, c, c1, c');
  }

  lemma Disp(v: int)
    requires 0 <= v < 0x8000_0000
    ensures Int32(v) == v
  {
  }

  lemma ReadRuns(x: Ctx, o: Obj, slot: int, v: int, st: State, c: Cpu) returns (c': Cpu)
    requires 0 <= slot < NSLOT
    requires Linked(x.obj, x.img) && Within(VPush(Emit(o, LoadRax(OFF_SLOTS + slot * 8))), x.obj) && c.pc == |o.b|
    requires Mirrors(x.env, st, c) && InWord(v) && |st.stack| < STACK_CAP
    requires c.mem[slot] == v
    ensures Reaches(x.img, c, c') && c'.pc == |VPush(Emit(o, LoadRax(OFF_SLOTS + slot * 8))).b| && Frame(c, c')
            && c'.rax == v
    ensures Mirrors(x.env, Push(st, v), c')
  {
    hide Linked, Within, Reaches, StackAt, OutputAt, SlotsAt, GatesAt, Int32;
    MemSize(c.mem, st.stack);
    Disp(OFF_SLOTS + slot * 8);
    var i := LoadRax(OFF_SLOTS + slot * 8);
    var o1 := Emit(o, i);
    EmitWithin(Emit(o1, SubR13), StoreTop, x.obj);
    EmitWithin(o1, SubR13, x.obj);
    StepEmit(x, o, i, c);
    var c1 := Effect(i, c, |o1.b|, |o1.b|);
    assert (slot * 8) / 8 == slot;
    assert c1.rax == v;
    c' := VPushRuns(x, o1, st, c1);
    ReachesTrans(x.img, c, c1, c');
  }

  // ----- the guarded store -----

  /** How a refused store leaves the machine: at the epilogue, with the call
      stack cut back to the entry frame and the sentinel in rax. */
  ghost predicate Trapped(x: Ctx, st: State, c: Cpu, c': Cpu) {
    && Epilogue in x.obj.labels && c'.pc == x.obj.labels[Epilogue]
    && c'.rax == REFUSED && 0 <= c.r14 <= |c.stk| && c'.stk == c.stk[..c.r14]
    && OutputAt(c'.mem, st.output) && SlotsAt(c'.mem, st.grid) && GatesAt(c'.mem, x.env)
  }

  /** The holder is a 64-bit word and so is the word after it; and if it is -1, for
      which the guard takes the zero of an ungranted slot for a grant, there is none. */
  predicate HolderOk(env: Env) {
    HolderFits(env) && (env.holder == -1 ==> forall s :: 0 <= s < NSLOT ==> s in env.grants)
  }

  predicate HolderFits(env: Env) {
    -TWO63 <= env.holder < TWO63 - 1
  }

  lemma GateAt(mem: seq<int>, env: Env, slot: int)
    requires GatesAt(mem, env) && 0 <= slot < NSLOT
    ensures |mem| == TOP_CELL && mem[HOLDER_CELL] == env.holder && mem[NSLOT + slot] == GrantWord(env, slot)
  {
  }

  lemma CompareWithin(o: Obj, arg: int, f: Obj)
    requires Within(GrantCompare(o, arg), f)
    ensures var o1 := Emit(o, LoadRax(OFF_GRANT + arg * 8));
            var o2 := Emit(o1, LoadRcx(OFF_HOLDER));
            Within(o1, f) && Within(o2, f) && Within(Emit(o2, IncRcx), f)
  {
    hide Within;
    var o1 := Emit(o, LoadRax(OFF_GRANT + arg * 8));
    var o2 := Emit(o1, LoadRcx(OFF_HOLDER));
    var o3 := Emit(o2, IncRcx);
    EmitWithin(o3, CmpRaxRcx, f);
    EmitWithin(o2, IncRcx, f);
    EmitWithin(o1, LoadRcx(OFF_HOLDER), f);
  }

  lemma LoadsRun(x: Ctx, o: Obj, arg: int, c: Cpu) returns (c': Cpu)
    requires 0 <= arg < NSLOT && Linked(x.obj, x.img) && c.pc == |o.b|
    requires Within(Emit(o, LoadRax(OFF_GRANT + arg * 8)), x.obj)
    requires Within(Emit(Emit(o, LoadRax(OFF_GRANT + arg * 8)), LoadRcx(OFF_HOLDER)), x.obj)
    requires GatesAt(c.mem, x.env) && c.r15 == 0
    ensures Reaches(x.img, c, c')
    ensures c' == c.(pc := |Emit(Emit(o, LoadRax(OFF_GRANT + arg * 8)), LoadRcx(OFF_HOLDER)).b|,
                     rax := GrantWord(x.env, arg), rcx := x.env.holder)
  {
    hide Linked, Within, Reaches, Int32, Emit, GatesAt, GrantWord;
    GateAt(c.mem, x.env, arg);
    Disp(OFF_GRANT + arg * 8);
    Disp(OFF_HOLDER);
    var i1, i2 := LoadRax(OFF_GRANT + arg * 8), LoadRcx(OFF_HOLDER);
    var o1 := Emit(o, i1);
    var o2 := Emit(o1, i2);
    StepEmit(x, o, i1, c);
    assert (OFF_GRANT + arg * 8) / 8 == NSLOT + arg && OFF_HOLDER / 8 == HOLDER_CELL;
    var c1 := c.(pc := |o1.b|, rax := GrantWord(x.env, arg));
    assert Effect(i1, c, |o1.b|, |o1.b|) == c1;
    StepEmit(x, o1, i2, c1);
    c' := Effect(i2, c1, |o2.b|, |o2.b|);
    ReachesTrans(x.img, c, c1, c');
  }

  /** The guard compares the slot's grant word with holder + 1. */
  lemma CompareRuns(x: Ctx, o: Obj, arg: int, c: Cpu) returns (c': Cpu)
    requires 0 <= arg < NSLOT && Linked(x.obj, x.img) && c.pc == |o.b| && HolderFits(x.env)
    requires Within(GrantCompare(o, arg), x.obj)
    requires GatesAt(c.mem, x.env) && c.r15 == 0
    ensures Reaches(x.img, c, c')
    ensures c' == c.(pc := |GrantCompare(o, arg).b|, rax := GrantWord(x.env, arg), rcx := x.env.holder + 1,
                     cmp := GrantWord(x.env, arg) - (x.env.holder + 1))
  {
    hide Linked, Within, Reaches, Emit, GatesAt, GrantWord, Word;
    CompareWithin(o, arg, x.obj);
    var c2 := LoadsRun(x, o, arg, c);
    var o2 := Emit(Emit(o, LoadRax(OFF_GRANT + arg * 8)), LoadRcx(OFF_HOLDER));
    var o3 := Emit(o2, IncRcx);
    StepEmit(x, o2, IncRcx, c2);
    WordId(x.env.holder + 1);
    var c3 := c2.(pc := |o3.b|, rcx := x.env.holder + 1);
    assert Effect(IncRcx, c2, |o3.b|, |o3.b|) == c3;
    StepEmit(x, o3, CmpRaxRcx, c3);
    var o4 := Emit(o3, CmpRaxRcx);
    c' := Effect(CmpRaxRcx, c3, |o4.b|, |o4.b|);
    ReachesTrans(x.img, c, c2, c3);
    ReachesTrans(x.img, c, c3, c');
  }

  lemma StoreBodyRuns(x: Ctx, o: Obj, arg: int, done: Label, st: State, c: Cpu) returns (c': Cpu)
    requires 0 <= arg < NSLOT && Linked(x.obj, x.img) && c.pc == |o.b|
    requires Within(StoreBody(o, arg, done), x.obj)
    requires Mirrors(x.env, st, c) && st.stack != []
    ensures Reaches(x.img, c, c') && done in x.obj.labels && c'.pc == x.obj.labels[done]
    ensures Frame(c, c') && c'.rax == Top(st)
    ensures Mirrors(x.env, Pop(st).(grid := st.grid[arg := EncodeInteger(Top(st)) + [RECORD]]), c')
  {
    hide Linked, Within, Reaches, StackAt, OutputAt, SlotsAt, GatesAt, Int32, EncodeInteger, VPopRax, Emit;
    var i := StoreRax(OFF_SLOTS + arg * 8);
    var o1 := VPopRax(o);
    var o2 := Emit(o1, i);
    JumpWithin(o2, Jmp, done, x.obj);
    EmitWithin(o1, i, x.obj);
    var c1 := VPopRaxRuns(x, o, st, c);
    MemSize(c1.mem, Pop(st).stack);
    Disp(OFF_SLOTS + arg * 8);
    StepEmit(x, o1, i, c1);
    assert (arg * 8) / 8 == arg;
    var c2 := c1.(pc := |o2.b|, mem := c1.mem[arg := Top(st)]);
    assert Effect(i, c1, |o2.b|, |o2.b|) == c2;
    SlotCell(c1.mem, x.env, Pop(st), arg, Top(st));
    StepJump(x, o2, Jmp, done, c2);
    c' := Effect(Jmp, c2, |StoreBody(o, arg, done).b|, x.obj.labels[done]);
    ReachesTrans(x.img, c, c1, c2);
    ReachesTrans(x.img, c, c2, c');
  }

  lemma StoreTrapRuns(x: Ctx, o: Obj, st: State, c: Cpu) returns (c': Cpu)
    requires Linked(x.obj, x.img) && c.pc == |o.b| && Within(StoreTrap(o), x.obj)
    requires OutputAt(c.mem, st.output) && SlotsAt(c.mem, st.grid) && GatesAt(c.mem, x.env)
    requires 0 <= c.r14 <= |c.stk|
    ensures Reaches(x.img, c, c') && Trapped(x, st, c, c')
  {
    hide Linked, Within, Reaches, OutputAt, SlotsAt, GatesAt, Emit, Int32;
    var o1 := Emit(o, MovRspR14);
    var o2 := Emit(o1, LeaR13(OFF_VTOP));
    var o3 := Emit(o2, MovRaxImm(REFUSED));
    JumpWithin(o3, Jmp, Epilogue, x.obj);
    EmitWithin(o2, MovRaxImm(REFUSED), x.obj);
    EmitWithin(o1, LeaR13(OFF_VTOP), x.obj);
    StepEmit(x, o, MovRspR14, c);
    var c1 := Effect(MovRspR14, c, |o1.b|, |o1.b|);
    StepEmit(x, o1, LeaR13(OFF_VTOP), c1);
    var c2 := Effect(LeaR13(OFF_VTOP), c1, |o2.b|, |o2.b|);
    StepEmit(x, o2, MovRaxImm(REFUSED), c2);
    var c3 := Effect(MovRaxImm(REFUSED), c2, |o3.b|, |o3.b|);
    StepJump(x, o3, Jmp, Epilogue, c3);
    c' := Effect(Jmp, c3, |StoreTrap(o).b|, x.obj.labels[Epilogue]);
    ReachesTrans(x.img, c, c1, c2);
    ReachesTrans(x.img, c, c2, c3);
    ReachesTrans(x.img, c, c3, c');
  }

  predicate Granted(env: Env, slot: int) {
    slot in env.grants && env.grants[slot] == env.holder
  }

  /** Whom the guard lets write: the holder of the grant, and holder -1 wherever there
      is no grant, since the zero of an ungranted slot is its holder + 1. */
  lemma GuardAdmits(env: Env, slot: int)
    ensures GrantWord(env, slot) == env.holder + 1 <==> Granted(env, slot) || (env.holder == -1 && slot !in env.grants)
  {
  }

  /** The grants as the guard reads them: to holder -1 every slot without one is his. */
  function AsRead(env: Env): Env {
    if env.holder == -1 then env.(grants := (map s | 0 <= s < NSLOT && s !in env.grants :: -1) + env.grants) else env
  }

  /** They let the same holders write as the guard does, and look the same to it. */
  lemma ReadGrants(env: Env)
    requires HolderFits(env)
    ensures HolderOk(AsRead(env)) && AsRead(env) == env.(grants := AsRead(env).grants)
    ensures forall s :: 0 <= s < NSLOT ==> GrantWord(AsRead(env), s) == GrantWord(env, s)
    ensures forall s :: 0 <= s < NSLOT ==> (Granted(AsRead(env), s) <==> GrantWord(env, s) == env.holder + 1)
    ensures forall s :: Granted(env, s) ==> Granted(AsRead(env), s)
  {
  }

  function Stored(st: State, slot: int, v: int): State {
    st.(grid := st.grid[slot := EncodeInteger(v) + [RECORD]])
  }

  /** The code of a STORE writes when the guard admits the holder and traps when not. */
  lemma GuardRuns(x: Ctx, o: Obj, arg: int, st: State, c: Cpu) returns (c': Cpu)
    requires 0 <= arg < NSLOT && Linked(x.obj, x.img) && c.pc == |o.b| && HolderFits(x.env)
    requires Good(o) && Within(EmitStore(o, arg), x.obj)
    requires Mirrors(x.env, st, c) && st.stack != [] && 0 <= c.r14 <= |c.stk|
    ensures Reaches(x.img, c, c')
    ensures if GrantWord(x.env, arg) != x.env.holder + 1 then Trapped(x, Pop(st), c, c')
            else Mirrors(x.env, Stored(Pop(st), arg, Top(st)), c') && Frame(c, c') && c'.pc == |EmitStore(o, arg).b|
                 && c'.rax == Top(st)
  {
    hide Linked, Within, Reaches, StackAt, OutputAt, SlotsAt, GatesAt, Good, EncodeInteger, GrantWord, Emit, StoreBody,
         StoreTrap, GrantCompare;
    var trap, done := Local(o.n + 1), Local(o.n + 2);
    var o0 := o.(n := o.n + 2);
    var o1 := GrantCompare(o0, arg);
    var o2 := StoreGuard(o, arg);
    var o3 := StoreBody(o2, arg, done);
    var o4 := Mark(o3, trap);
    StoreWithin(o, arg, x.obj);
    var c1 := CompareRuns(x, o0, arg, c);
    StepJump(x, o1, Jcc(NotEqual), trap, c1);
    var c2 := Effect(Jcc(NotEqual), c1, |o2.b|, x.obj.labels[trap]);
    ReachesTrans(x.img, c, c1, c2);
    if GrantWord(x.env, arg) == x.env.holder + 1 {
      c' := StoreBodyRuns(x, o2, arg, done, st, c2);
    } else {
      c' := StoreTrapRuns(x, o4, Pop(st), c2);
    }
    ReachesTrans(x.img, c, c2, c');
  }

  lemma StoreRuns(x: Ctx, o: Obj, arg: int, st: State, c: Cpu) returns (c': Cpu)
    requires 0 <= arg < NSLOT && Linked(x.obj, x.img) && c.pc == |o.b| && HolderOk(x.env) && x.env.attached
    requires Good(o) && Within(EmitStore(o, arg), x.obj)
    requires Mirrors(x.env, st, c) && st.stack != [] && 0 <= c.r14 <= |c.stk|
    ensures Reaches(x.img, c, c')
    ensures var r := StoreSlot(x.env, arg, Top(st), Pop(st));
            if r.1.Refused? then Trapped(x, r.0, c, c')
            else Mirrors(x.env, r.0, c') && Frame(c, c') && c'.pc == |EmitStore(o, arg).b| && c'.rax == Top(st)
  {
    hide Linked, Within, Reaches, Mirrors, Trapped, Good, EncodeInteger, GrantWord, EmitStore;
    GuardAdmits(x.env, arg);
    c' := GuardRuns(x, o, arg, st, c);
  }

  lemma StoreWithin(o: Obj, arg: int, f: Obj)
    requires Good(o) && Within(EmitStore(o, arg), f)
    ensures var o1 := StoreGuard(o, arg);
            var o2 := StoreBody(o1, arg, Local(o.n + 2));
            var o3 := Mark(o2, Local(o.n + 1));
            && Within(GrantCompare(o.(n := o.n + 2), arg), f) && Within(o1, f) && Within(o2, f)
            && Within(StoreTrap(o3), f)
            && Local(o.n + 1) in f.labels && f.labels[Local(o.n + 1)] == |o2.b| == |o3.b|
            && Local(o.n + 2) in f.labels && f.labels[Local(o.n + 2)] == |EmitStore(o, arg).b|
  {
    hide Good, Grows, GrantCompare, StoreBody, StoreTrap, Within, StoreGuard;
    var n := o.n;
    FreshLabel(o, n + 1);
    FreshLabel(o, n + 2);
    StoreGuardGood(o, arg);
    var o1 := StoreGuard(o, arg);
    StoreBodyGood(n, o1, arg, Local(n + 2));
    var o2 := StoreBody(o1, arg, Local(n + 2));
    MarkGood(n, o2, n + 1);
    var o3 := Mark(o2, Local(n + 1));
    StoreTrapGood(n, o3);
    var o4 := StoreTrap(o3);
    MarkGood(n, o4, n + 2);
    var o5 := Mark(o4, Local(n + 2));
    assert o5 == EmitStore(o, arg);
    GrowsWithin(n, o4, o5, f);
    GrowsWithin(n, o3, o4, f);
    GrowsWithin(n, o2, o3, f);
    GrowsWithin(n, o1, o2, f);
    assert o1 == Jump(GrantCompare(o.(n := n + 2), arg), Jcc(NotEqual), Local(n + 1)) by { GuardIs(o, arg); }
    JumpWithin(GrantCompare(o.(n := n + 2), arg), Jcc(NotEqual), Local(n + 1), f);
    LabelWithin(o3, f, Local(n + 1));
    LabelWithin(o5, f, Local(n + 2));
  }

  lemma GuardIs(o: Obj, arg: int)
    ensures StoreGuard(o, arg) == Jump(GrantCompare(o.(n := o.n + 2), arg), Jcc(NotEqual), Local(o.n + 1))
  {
  }

  // ----- the three-way dispatch -----

  lemma TestRuns(x: Ctx, o: Obj, st: State, c: Cpu) returns (c': Cpu)
    requires Linked(x.obj, x.img) && c.pc == |o.b| && Within(Emit(VPopRax(o), CmpRaxZero), x.obj)
    requires Mirrors(x.env, st, c) && st.stack != []
    ensures Reaches(x.img, c, c') && Frame(c, c') && c'.rax == Top(st)
    ensures c'.pc == |Emit(VPopRax(o), CmpRaxZero).b| && c'.cmp == Top(st)
    ensures Mirrors(x.env, Pop(st), c')
  {
    hide Linked, Within, Reaches, StackAt, OutputAt, SlotsAt, GatesAt, Emit, VPopRax;
    var o1 := VPopRax(o);
    var o2 := Emit(o1, CmpRaxZero);
    EmitWithin(o1, CmpRaxZero, x.obj);
    var c1 := VPopRaxRuns(x, o, st, c);
    StepEmit(x, o1, CmpRaxZero, c1);
    c' := Effect(CmpRaxZero, c1, |o2.b|, |o2.b|);
    ReachesTrans(x.img, c, c1, c');
  }

  lemma JumpRuns(x: Ctx, o: Obj, i: Instr, l: Label, c: Cpu)
    requires Linked(x.obj, x.img) && c.pc == |o.b| && (i.Jmp? || i.Jcc?) && Within(Jump(o, i, l), x.obj)
    ensures Within(o, x.obj) && l in x.obj.labels
    ensures Reaches(x.img, c, c.(pc := if i.Jmp? || Taken(i.cc, c.cmp) then x.obj.labels[l] else |Jump(o, i, l).b|))
  {
    hide Linked, Within, Reaches, Jump;
    JumpWithin(o, i, l, x.obj);
    StepJump(x, o, i, l, c);
  }

  /** Two conditional jumps and a plain one lead to the label of the sign. */
  lemma SignJumps(x: Ctx, o: Obj, l: nat, c: Cpu) returns (c': Cpu)
    requires Linked(x.obj, x.img) && c.pc == |o.b|
    requires Within(Jump(Jump(Jump(o, Jcc(Greater), Local(l + 2)), Jcc(Equal), Local(l + 3)), Jmp, Local(l + 4)), x.obj)
    ensures Reaches(x.img, c, c')
    ensures Local(l + 2 + ArmIndex(c.cmp)) in x.obj.labels
    ensures c' == c.(pc := x.obj.labels[Local(l + 2 + ArmIndex(c.cmp))])
  {
    hide Linked, Within, Reaches, Jump, Effect;
    var o3 := Jump(o, Jcc(Greater), Local(l + 2));
    var o4 := Jump(o3, Jcc(Equal), Local(l + 3));
    var c3 := c.(pc := |o3.b|);
    var c4 := c.(pc := |o4.b|);
    JumpRuns(x, o4, Jmp, Local(l + 4), c4);
    JumpRuns(x, o3, Jcc(Equal), Local(l + 3), c3);
    JumpRuns(x, o, Jcc(Greater), Local(l + 2), c);
    c' := c.(pc := x.obj.labels[Local(l + 2 + ArmIndex(c.cmp))]);
    if c.cmp == 0 {
      ReachesTrans(x.img, c, c3, c');
    } else if c.cmp < 0 {
      ReachesTrans(x.img, c, c3, c4);
      ReachesTrans(x.img, c, c4, c');
    }
  }

  lemma IfHeadRuns(x: Ctx, o: Obj, st: State, c: Cpu) returns (c': Cpu)
    requires Linked(x.obj, x.img) && c.pc == |o.b| && Within(IfHead(o), x.obj)
    requires Mirrors(x.env, st, c) && st.stack != []
    ensures var l := Local(o.n + 2 + ArmIndex(Top(st)));
            l in x.obj.labels && c'.pc == x.obj.labels[l]
    ensures Reaches(x.img, c, c') && Frame(c, c') && c'.rax == Top(st)
    ensures Mirrors(x.env, Pop(st), c')
  {
    hide Linked, Within, Reaches, StackAt, OutputAt, SlotsAt, GatesAt, Emit, Jump, VPopRax;
    var l := o.n;
    var o0 := o.(n := l + 4);
    var o2 := Emit(VPopRax(o0), CmpRaxZero);
    var o3 := Jump(o2, Jcc(Greater), Local(l + 2));
    var o4 := Jump(o3, Jcc(Equal), Local(l + 3));
    JumpWithin(o4, Jmp, Local(l + 4), x.obj);
    JumpWithin(o3, Jcc(Equal), Local(l + 3), x.obj);
    JumpWithin(o2, Jcc(Greater), Local(l + 2), x.obj);
    var c2 := TestRuns(x, o0, st, c);
    c' := SignJumps(x, o2, l, c2);
    ReachesTrans(x.img, c, c2, c');
  }
}
