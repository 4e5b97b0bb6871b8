/** The compiler written in the machine's own tokens (python/griddb_compiler5b.py):
    a program that reads a source from slots and leaves machine code, a byte a
    slot, for the arithmetic subset. */
module Compiler5b {
  import opened Lexicon
  import opened Interp
  import opened Structured
  import opened SemRules
  import Gates

  const SRC_N := 10
  const OUT_N := 11
  const IP := 20
  const OP := 21
  const TK := 22
  const SRC_BASE := 100
  const OUT_BASE := 1000

  // ----- what the program is to produce -----

  const ADD_CODE: seq<int> := [0x5B, 0x58, 0x48, 0x01, 0xD8, 0x50]
  const SUB_CODE: seq<int> := [0x5B, 0x58, 0x48, 0x29, 0xD8, 0x50]
  const MUL_CODE: seq<int> := [0x5B, 0x58, 0x48, 0x0F, 0xAF, 0xC3, 0x50]
  const EMIT_CODE: seq<int> := [0x58, 0xC3]

  function LiteralCode(d: int): seq<int> {
    [0x48, 0xB8] + [d] + [0, 0, 0, 0, 0, 0, 0] + [0x50]
  }

  /** The lowering of one source token; anything above the multiplication ends. */
  function Lower(t: int): seq<int> {
    if t < 10 then LiteralCode(t)
    else if t == 10 then ADD_CODE
    else if t == 11 then SUB_CODE
    else if t == 12 then MUL_CODE
    else EMIT_CODE
  }

  function LowerAll(src: seq<int>): seq<int> {
    if src == [] then [] else LowerAll(src[..|src| - 1]) + Lower(src[|src| - 1])
  }

  // ----- the program -----

  /** Appends the values of the expressions to OUT, one a slot. */
  function Fragment(es: seq<Expr>): Block {
    if es == [] then Done
    else
      Then(Put(Add(Const(OUT_BASE), Slot(OP)), es[0]),
      Then(Assign(OP, Add(Slot(OP), Const(1))), Fragment(es[1..])))
  }

  function Consts(bytes: seq<int>): (es: seq<Expr>)
    ensures |es| == |bytes|
  {
    seq(|bytes|, i requires 0 <= i < |bytes| => Const(bytes[i]))
  }

  function LiteralExprs(): seq<Expr> {
    Consts([0x48, 0xB8]) + [Slot(TK)] + Consts([0, 0, 0, 0, 0, 0, 0]) + Consts([0x50])
  }

  function Against(k: int): Expr {
    Sub(Slot(TK), Const(k))
  }

  function AboveAdd(): Block {
    Then(If(Against(11), AboveSub(), Fragment(Consts(SUB_CODE)), Fragment(Consts(MUL_CODE)), 3), Done)
  }

  function AboveSub(): Block {
    Then(If(Against(12), Fragment(Consts(EMIT_CODE)), Fragment(Consts(MUL_CODE)), Fragment(Consts(EMIT_CODE)), 3), Done)
  }

  function OpDispatch(): Block {
    Then(If(Against(10), AboveAdd(), Fragment(Consts(ADD_CODE)), Fragment(Consts(ADD_CODE)), 3), Done)
  }

  function DispatchCurrent(): Block {
    Then(Assign(TK, At(Add(Const(SRC_BASE), Slot(IP)))),
    Then(Assign(IP, Add(Slot(IP), Const(1))),
    Then(If(Against(10), OpDispatch(), OpDispatch(), Fragment(LiteralExprs()), 3), Done)))
  }

  function LoopBody(): Block {
    Then(If(Sub(Slot(IP), Slot(SRC_N)), Then(Breaks, Done), Then(Breaks, Done), DispatchCurrent(), 3), Done)
  }

  function CompilerBlock(): Block {
    Then(Assign(IP, Const(0)),
    Then(Assign(OP, Const(0)),
    Then(Loops(LoopBody()),
    Then(Assign(OUT_N, Slot(OP)), Done))))
  }

  function CompilerProgram(): seq<Token> {
    Program(1, Flat(CompilerBlock()))
  }

  /** The fragment builder, a loop over its bytes. */
  method EmitByteSeq(bytes: seq<int>) returns (frag: seq<Token>)
    ensures frag == Flat(Fragment(Consts(bytes)))
  {
    frag := [];
    var i := 0;
    hide Flat, Fragment;
    assert Consts(bytes)[0..] == Consts(bytes);
    assert [] + Flat(Fragment(Consts(bytes)[0..])) == Flat(Fragment(Consts(bytes)[0..]));
    while i < |bytes|
      invariant 0 <= i <= |bytes|
      invariant frag + Flat(Fragment(Consts(bytes)[i..])) == Flat(Fragment(Consts(bytes)))
    {
      FragmentStep(frag, Consts(bytes), i);
      frag := frag
        + EncodeInteger(bytes[i]) + EncodeInteger(OUT_BASE) + VerbArg(READ, OP) + [PLUS] + Verb(STOREX)
        + VerbArg(READ, OP) + EncodeInteger(1) + [PLUS] + VerbArg(STORE, OP);
      i := i + 1;
    }
    FragmentNone(Consts(bytes));
  }

  lemma FragmentStep(frag: seq<Token>, es: seq<Expr>, i: nat)
    requires i < |es|
    ensures frag + Flat(Fragment(es[i..]))
         == frag + ExprToks(es[i]) + EncodeInteger(OUT_BASE) + VerbArg(READ, OP) + [PLUS] + Verb(STOREX)
            + VerbArg(READ, OP) + EncodeInteger(1) + [PLUS] + VerbArg(STORE, OP) + Flat(Fragment(es[i + 1..]))
  {
    hide VerbArg, Verb, EncodeInteger;
    var put := Put(Add(Const(OUT_BASE), Slot(OP)), es[i]);
    var inc := Assign(OP, Add(Slot(OP), Const(1)));
    var rest := Flat(Fragment(es[i + 1..]));
    assert Flat(Fragment(es[i..])) == CmdToks(put) + (CmdToks(inc) + rest) by {
      FragmentFlat(es, i);
    }
    assert CmdToks(put) == ExprToks(es[i]) + (EncodeInteger(OUT_BASE) + VerbArg(READ, OP) + [PLUS]) + Verb(STOREX);
    assert CmdToks(inc) == VerbArg(READ, OP) + EncodeInteger(1) + [PLUS] + VerbArg(STORE, OP);
    hide Flat, Fragment, CmdToks, ExprToks;
  }

  lemma FragmentFlat(es: seq<Expr>, i: nat)
    requires i < |es|
    ensures Flat(Fragment(es[i..]))
         == CmdToks(Put(Add(Const(OUT_BASE), Slot(OP)), es[i]))
            + (CmdToks(Assign(OP, Add(Slot(OP), Const(1)))) + Flat(Fragment(es[i + 1..])))
  {
    hide CmdToks;
    assert es[i..][1..] == es[i + 1..];
  }

  lemma FragmentNone(es: seq<Expr>)
    ensures Flat(Fragment(es[|es|..])) == []
  {
  }

  lemma {:induction false} FragmentProper(es: seq<Expr>)
    ensures Proper(Fragment(es))
  {
    if es != [] {
      FragmentProper(es[1..]);
      assert Proper(Then(Assign(OP, Add(Slot(OP), Const(1))), Fragment(es[1..])));
    }
  }

  lemma CompilerProper()
    ensures Proper(CompilerBlock())
  {
    FragmentProper(Consts(ADD_CODE));
    FragmentProper(Consts(SUB_CODE));
    FragmentProper(Consts(MUL_CODE));
    FragmentProper(Consts(EMIT_CODE));
    FragmentProper(LiteralExprs());
    hide Fragment, Consts, LiteralExprs;
    assert Proper(AboveSub());
    assert Proper(AboveAdd());
    assert Proper(OpDispatch());
    hide OpDispatch;
    assert Proper(Then(If(Against(10), OpDispatch(), OpDispatch(), Fragment(LiteralExprs()), 3), Done));
    assert Proper(DispatchCurrent());
    hide DispatchCurrent;
    assert Proper(Then(Breaks, Done));
    assert Proper(LoopBody());
    hide LoopBody;
    assert Proper(Then(Assign(OUT_N, Slot(OP)), Done));
    assert Proper(Then(Loops(LoopBody()), Then(Assign(OUT_N, Slot(OP)), Done)));
  }

  // ----- its memory -----

  /** The source is where the program reads it, out of the way of the output. */
  ghost predicate Source(src: seq<int>, slots: map<int, int>) {
    && |src| <= OUT_BASE - SRC_BASE
    && SRC_N in slots && slots[SRC_N] == |src|
    && forall i :: 0 <= i < |src| ==> Cell(src[i], SRC_BASE + i, slots)
  }

  predicate Cell(v: int, s: int, slots: map<int, int>) {
    s in slots && slots[s] == v
  }

  ghost predicate Emitted(bytes: seq<int>, slots: map<int, int>) {
    && OP in slots && slots[OP] == |bytes|
    && forall j :: 0 <= j < |bytes| ==> Cell(bytes[j], OUT_BASE + j, slots)
  }

  /** The slots the loader grants: the scalars and room for the output. */
  ghost predicate Granted(g: set<int>, room: nat) {
    {OUT_N, IP, OP, TK} <= g && forall s :: OUT_BASE <= s < OUT_BASE + room ==> s in g
  }

  /** One scalar rewritten; OP only from the builder's own count. */
  lemma ScalarWrite(src: seq<int>, bytes: seq<int>, slots: map<int, int>, s: int, v: int)
    requires Source(src, slots) && s in {IP, TK, OUT_N} && Emitted(bytes, slots)
    ensures Source(src, slots[s := v]) && Emitted(bytes, slots[s := v])
  {
    assert forall i :: 0 <= i < |src| ==> Cell(src[i], SRC_BASE + i, slots);
    assert forall j :: 0 <= j < |bytes| ==> Cell(bytes[j], OUT_BASE + j, slots);
  }

  /** A byte appended: its slot, then the count. */
  lemma ByteWrite(src: seq<int>, bytes: seq<int>, slots: map<int, int>, v: int)
    requires Source(src, slots) && Emitted(bytes, slots)
    ensures var after := slots[OUT_BASE + |bytes| := v][OP := |bytes| + 1];
            && Source(src, after) && Emitted(bytes + [v], after)
            && (forall s :: s in {IP, TK} && s in slots ==> s in after && after[s] == slots[s])
  {
    var after := slots[OUT_BASE + |bytes| := v][OP := |bytes| + 1];
    forall i | 0 <= i < |src| ensures Cell(src[i], SRC_BASE + i, after) {
      assert Cell(src[i], SRC_BASE + i, slots);
    }
    forall j | 0 <= j < |bytes + [v]| ensures Cell((bytes + [v])[j], OUT_BASE + j, after) {
      if j < |bytes| {
        assert Cell(bytes[j], OUT_BASE + j, slots);
      }
    }
  }

  lemma SourceAt(src: seq<int>, slots: map<int, int>, i: nat)
    requires Source(src, slots) && i < |src|
    ensures SRC_BASE + i in slots && slots[SRC_BASE + i] == src[i]
  {
    assert Cell(src[i], SRC_BASE + i, slots);
  }

  lemma SourceSize(src: seq<int>, slots: map<int, int>)
    requires Source(src, slots)
    ensures SRC_N in slots && slots[SRC_N] == |src| && |src| <= OUT_BASE - SRC_BASE
  {
  }

  lemma EmittedSize(bytes: seq<int>, slots: map<int, int>)
    requires Emitted(bytes, slots)
    ensures OP in slots && slots[OP] == |bytes|
  {
  }

  // ----- its run -----

  /** An output expression is a constant or the current token. */
  predicate Simple(e: Expr) {
    e.Const? || e == Slot(TK)
  }

  function ByteOf(e: Expr, tk: int): int {
    if e.Const? then e.n else tk
  }

  function BytesOf(es: seq<Expr>, tk: int): (bs: seq<int>)
    ensures |bs| == |es|
  {
    seq(|es|, i requires 0 <= i < |es| => ByteOf(es[i], tk))
  }

  ghost predicate AtWork(slots: map<int, int>, ip: int, tk: int) {
    IP in slots && slots[IP] == ip && TK in slots && slots[TK] == tk
  }

  lemma SimpleVal(e: Expr, slots: map<int, int>, tk: int)
    requires Simple(e) && TK in slots && slots[TK] == tk
    ensures Val(e, slots) == Some(ByteOf(e, tk)) && Cost(e) == 1
  {
  }

  lemma {:induction false} FragmentRuns(g: set<int>, src: seq<int>, bytes: seq<int>, es: seq<Expr>, m: Mem, ip: int,
      tk: int, room: nat, gas: nat)
    requires Source(src, m.slots) && Emitted(bytes, m.slots) && AtWork(m.slots, ip, tk) && Granted(g, room)
    requires (forall i :: 0 <= i < |es| ==> Simple(es[i])) && |bytes| + |es| <= room && 9 * |es| <= gas
    ensures var x := Sem(g, Fragment(es), m, gas);
            && Ok(x, gas - 9 * |es|, m.out) && Source(src, x.value.0.slots)
            && Emitted(bytes + BytesOf(es, tk), x.value.0.slots) && AtWork(x.value.0.slots, ip, tk)
    decreases |es|
  {
    hide Sem, Val, Cost, Source, Emitted, BytesOf;
    if es == [] {
      SemDone(g, m, gas);
      assert bytes + BytesOf(es, tk) == bytes;
    } else {
      EmittedSize(bytes, m.slots);
      SimpleVal(es[0], m.slots, tk);
      IndexVal(m.slots, OUT_BASE, OP);
      var v := ByteOf(es[0], tk);
      var inc := Then(Assign(OP, Add(Slot(OP), Const(1))), Fragment(es[1..]));
      SemPut(g, Add(Const(OUT_BASE), Slot(OP)), es[0], inc, m, gas);
      var m1 := m.(slots := m.slots[OUT_BASE + |bytes| := v]);
      NextVal(m1.slots, OP);
      SemAssign(g, OP, Add(Slot(OP), Const(1)), Fragment(es[1..]), m1, gas - 5);
      var m2 := m1.(slots := m1.slots[OP := |bytes| + 1]);
      ByteWrite(src, bytes, m.slots, v);
      FragmentRuns(g, src, bytes + [v], es[1..], m2, ip, tk, room, gas - 9);
      BytesStep(es, tk);
      assert bytes + [v] + BytesOf(es[1..], tk) == bytes + ([v] + BytesOf(es[1..], tk));
    }
  }

  lemma BytesStep(es: seq<Expr>, tk: int)
    requires es != []
    ensures BytesOf(es, tk) == [ByteOf(es[0], tk)] + BytesOf(es[1..], tk)
  {
  }

  lemma ConstBytes(bytes: seq<int>, tk: int)
    ensures BytesOf(Consts(bytes), tk) == bytes
    ensures forall i :: 0 <= i < |Consts(bytes)| ==> Simple(Consts(bytes)[i])
  {
  }

  lemma LiteralBytes(tk: int)
    ensures |LiteralExprs()| == 11 && BytesOf(LiteralExprs(), tk) == LiteralCode(tk)
    ensures forall i :: 0 <= i < |LiteralExprs()| ==> Simple(LiteralExprs()[i])
  {
  }

  /** A run that appended bytes to the output within a budget. */
  ghost predicate Wrote(x: Ran, spent: nat, gas: nat, m: Mem, src: seq<int>, bytes: seq<int>, ip: int, tk: int)
  {
    && spent <= gas && Ok(x, gas - spent, m.out) && Source(src, x.value.0.slots)
    && Emitted(bytes, x.value.0.slots) && AtWork(x.value.0.slots, ip, tk)
  }

  lemma CodeRuns(g: set<int>, src: seq<int>, bytes: seq<int>, code: seq<int>, m: Mem, ip: int, tk: int, room: nat,
      gas: nat)
    requires Source(src, m.slots) && Emitted(bytes, m.slots) && AtWork(m.slots, ip, tk) && Granted(g, room)
    requires |bytes| + |code| <= room && 9 * |code| <= gas
    ensures Wrote(Sem(g, Fragment(Consts(code)), m, gas), 9 * |code|, gas, m, src, bytes + code, ip, tk)
  {
    hide Sem, Source, Emitted, Fragment;
    ConstBytes(code, tk);
    FragmentRuns(g, src, bytes, Consts(code), m, ip, tk, room, gas);
  }

  lemma AgainstVal(slots: map<int, int>, k: int)
    requires TK in slots
    ensures Val(Against(k), slots) == Some(slots[TK] - k) && Cost(Against(k)) == 3
  {
  }

  lemma IfEnds(g: set<int>, e: Expr, p: Block, z: Block, mi: Block, m: Mem, gas: nat)
    requires Val(e, m.slots).Some? && Cost(e) + 1 <= gas
    ensures var v := Val(e, m.slots).value;
            var r := Sem(g, if v > 0 then p else if v == 0 then z else mi, m, gas - Cost(e) - 1);
            Sem(g, Then(If(e, p, z, mi, 3), Done), m, gas) == r || (r.Some? && r.value.2.Left?)
  {
    hide Sem, Val, Cost;
    SemIf(g, e, p, z, mi, Done, m, gas);
    var v := Val(e, m.slots).value;
    var r := Sem(g, if v > 0 then p else if v == 0 then z else mi, m, gas - Cost(e) - 1);
    if r.Some? && r.value.2.Fell? {
      SemDone(g, r.value.0, r.value.1);
    }
  }

  lemma OpRuns(g: set<int>, src: seq<int>, bytes: seq<int>, m: Mem, ip: int, tk: int, room: nat, gas: nat)
    requires Source(src, m.slots) && Emitted(bytes, m.slots) && AtWork(m.slots, ip, tk) && Granted(g, room)
    requires tk >= 10 && |bytes| + |Lower(tk)| <= room && 75 <= gas
    ensures Wrote(Sem(g, OpDispatch(), m, gas), 75, gas, m, src, bytes + Lower(tk), ip, tk)
  {
    hide Sem, Source, Emitted, Fragment, Consts, Val, Cost, Against, Granted;
    AgainstVal(m.slots, 10);
    IfEnds(g, Against(10), AboveAdd(), Fragment(Consts(ADD_CODE)), Fragment(Consts(ADD_CODE)), m, gas);
    if tk == 10 {
      CodeRuns(g, src, bytes, ADD_CODE, m, ip, tk, room, gas - 4);
    } else {
      AgainstVal(m.slots, 11);
      IfEnds(g, Against(11), AboveSub(), Fragment(Consts(SUB_CODE)), Fragment(Consts(MUL_CODE)), m, gas - 4);
      if tk == 11 {
        CodeRuns(g, src, bytes, SUB_CODE, m, ip, tk, room, gas - 8);
      } else {
        AgainstVal(m.slots, 12);
        IfEnds(g, Against(12), Fragment(Consts(EMIT_CODE)), Fragment(Consts(MUL_CODE)), Fragment(Consts(EMIT_CODE)), m,
            gas - 8);
        if tk == 12 {
          CodeRuns(g, src, bytes, MUL_CODE, m, ip, tk, room, gas - 12);
        } else {
          CodeRuns(g, src, bytes, EMIT_CODE, m, ip, tk, room, gas - 12);
        }
      }
    }
  }

  lemma TokenVal(src: seq<int>, slots: map<int, int>, ip: nat)
    requires Source(src, slots) && ip < |src| && IP in slots && slots[IP] == ip
    ensures Val(At(Add(Const(SRC_BASE), Slot(IP))), slots) == Some(src[ip])
    ensures Cost(At(Add(Const(SRC_BASE), Slot(IP)))) == 4
  {
    SourceAt(src, slots, ip);
    IndexVal(slots, SRC_BASE, IP);
  }

  /** One source token: read, counted and lowered. */
  lemma TokenRuns(g: set<int>, src: seq<int>, bytes: seq<int>, m: Mem, ip: nat, room: nat, gas: nat)
    requires Source(src, m.slots) && Emitted(bytes, m.slots) && Granted(g, room)
    requires ip < |src| && IP in m.slots && m.slots[IP] == ip
    requires |bytes| + |Lower(src[ip])| <= room && 112 <= gas
    ensures Wrote(Sem(g, DispatchCurrent(), m, gas), 112, gas, m, src, bytes + Lower(src[ip]), ip + 1, src[ip])
  {
    hide Sem, Source, Emitted, Fragment, Consts, LiteralExprs, Val, Cost, Against, OpDispatch;
    var tk := src[ip];
    var test := Then(If(Against(10), OpDispatch(), OpDispatch(), Fragment(LiteralExprs()), 3), Done);
    TokenVal(src, m.slots, ip);
    SemAssign(g, TK, At(Add(Const(SRC_BASE), Slot(IP))), Then(Assign(IP, Add(Slot(IP), Const(1))), test), m, gas);
    ScalarWrite(src, bytes, m.slots, TK, tk);
    var m1 := m.(slots := m.slots[TK := tk]);
    NextVal(m1.slots, IP);
    SemAssign(g, IP, Add(Slot(IP), Const(1)), test, m1, gas - 5);
    ScalarWrite(src, bytes, m1.slots, IP, ip + 1);
    var m2 := m1.(slots := m1.slots[IP := ip + 1]);
    AgainstVal(m2.slots, 10);
    IfEnds(g, Against(10), OpDispatch(), OpDispatch(), Fragment(LiteralExprs()), m2, gas - 9);
    if tk < 10 {
      LiteralBytes(tk);
      FragmentRuns(g, src, bytes, LiteralExprs(), m2, ip + 1, tk, room, gas - 13);
    } else {
      OpRuns(g, src, bytes, m2, ip + 1, tk, room, gas - 13);
    }
  }

  lemma LowerStep(src: seq<int>, ip: nat)
    requires ip < |src|
    ensures LowerAll(src[..ip + 1]) == LowerAll(src[..ip]) + Lower(src[ip])
  {
    assert src[..ip + 1][..ip] == src[..ip];
  }

  lemma {:induction false} LowerGrows(src: seq<int>, ip: nat)
    requires ip <= |src|
    ensures |LowerAll(src[..ip])| <= |LowerAll(src)|
    decreases |src| - ip
  {
    if ip < |src| {
      LowerStep(src, ip);
      LowerGrows(src, ip + 1);
    } else {
      assert src[..ip] == src;
    }
  }

  lemma {:induction false} LoopRuns(g: set<int>, src: seq<int>, m: Mem, ip: nat, room: nat, gas: nat)
    requires Source(src, m.slots) && Granted(g, room) && ip <= |src| && IP in m.slots && m.slots[IP] == ip
    requires Emitted(LowerAll(src[..ip]), m.slots) && |LowerAll(src)| <= room && 117 * (|src| - ip) + 6 <= gas
    ensures var x := SemLoop(g, LoopBody(), m, gas);
            && Ok(x, gas - 117 * (|src| - ip) - 6, m.out) && Source(src, x.value.0.slots)
            && Emitted(LowerAll(src), x.value.0.slots)
    decreases |src| - ip
  {
    hide Source, Emitted, Sem, Val, Cost, DispatchCurrent, LowerAll, Lower;
    SourceSize(src, m.slots);
    DiffVal(m.slots, IP, SRC_N);
    var brk := Then(Breaks, Done);
    SemIf(g, Sub(Slot(IP), Slot(SRC_N)), brk, brk, DispatchCurrent(), Done, m, gas - 1);
    if ip == |src| {
      SemBreak(g, m, gas - 5);
      assert src[..ip] == src;
    } else {
      LowerStep(src, ip);
      LowerGrows(src, ip + 1);
      TokenRuns(g, src, LowerAll(src[..ip]), m, ip, room, gas - 5);
      var x := Sem(g, DispatchCurrent(), m, gas - 5).value;
      SemDone(g, x.0, x.1);
      LoopRuns(g, src, x.0, ip + 1, room, x.1);
    }
  }

  /** Run on the walker over any source the array holds, with room for its code
      and 117 steps a token, the program leaves in OUT exactly the lowerings of
      the source tokens, one after another, and their length in OUT_N. */
  lemma CompilerRuns(env: Env, src: seq<int>, slots: map<int, int>, st: State)
      returns (st': State, slots': map<int, int>)
    requires 1 in env.programs && env.programs[1] == CompilerProgram() && env.attached
    requires Source(src, slots) && Granted(Grants(env), |LowerAll(src)|)
    requires st.grid == GridOf(slots) && st.steps == 0 && 117 * |src| + 16 <= env.maxSteps
    ensures CallSlot(env, 1, st) == (st', Fall(0))
    ensures st'.stack == st.stack && st'.output == st.output
    ensures st'.grid == GridOf(slots') && OUT_N in slots' && slots'[OUT_N] == |LowerAll(src)|
    ensures forall s :: OUT_BASE <= s < OUT_BASE + |LowerAll(src)| ==>
              s in slots' && slots'[s] == LowerAll(src)[s - OUT_BASE]
  {
    hide Source, Emitted, Sem, Val, Cost, LoopBody, SemLoop, GridOf, Flat, CallSlot, LowerAll;
    var g := Grants(env);
    var room := |LowerAll(src)|;
    var m := Mem(slots, st.output);
    var gas := env.maxSteps - 1;
    var tail := Then(Loops(LoopBody()), Then(Assign(OUT_N, Slot(OP)), Done));
    ConstVal(slots, 0);
    SemAssign(g, IP, Const(0), Then(Assign(OP, Const(0)), tail), m, gas);
    var m1 := m.(slots := slots[IP := 0]);
    ConstVal(m1.slots, 0);
    SemAssign(g, OP, Const(0), tail, m1, gas - 2);
    var m2 := m1.(slots := m1.slots[OP := 0]);
    StartsEmpty(src, slots);
    LoopRuns(g, src, m2, 0, room, gas - 5);
    SemLoopVerb(g, LoopBody(), Then(Assign(OUT_N, Slot(OP)), Done), m2, gas - 4);
    var x := SemLoop(g, LoopBody(), m2, gas - 5).value;
    EmittedSize(LowerAll(src), x.0.slots);
    SlotVal(x.0.slots, OP);
    SemAssign(g, OUT_N, Slot(OP), Done, x.0, x.1);
    ScalarWrite(src, LowerAll(src), x.0.slots, OUT_N, room);
    var m3 := x.0.(slots := x.0.slots[OUT_N := room]);
    SemDone(g, m3, x.1 - 2);
    CompilerProper();
    st' := ProgramWalks(env, 1, CompilerBlock(), m, st);
    slots' := m3.slots;
    EmittedCells(LowerAll(src), slots');
  }

  /** The OUT cells the runner grants. */
  const ROOM := 400

  /** As the runner grants them: the program's cells, ROOM cells of OUT and none past those. */
  ghost predicate RunnerGrants(env: Env) {
    && Granted(Grants(env), ROOM)
    && forall s :: OUT_BASE + ROOM <= s ==> !Gates.Holds(env.grants, env.holder, s)
  }

  predicate InOut(slot: int, room: nat) {
    OUT_BASE <= slot < OUT_BASE + room
  }

  /** More room in OUT, all of it granted. */
  function Roomier(env: Env, room: nat): Env {
    env.(grants := env.grants + map s | OUT_BASE <= s < OUT_BASE + room && InOut(s, room) :: env.holder)
  }

  lemma MoreRoom(env: Env, room: nat)
    requires Granted(Grants(env), ROOM)
    ensures var more := Roomier(env, room);
            && Granted(Grants(more), room) && Gates.Fewer(env.grants, more) && Gates.With(more, env.grants) == env
            && more.programs == env.programs && more.attached == env.attached && more.maxSteps == env.maxSteps
  {
    var g, more := Grants(env), Roomier(env, room);
    assert forall s :: s in g ==> s in Grants(more);
  }

  /** The runner's compiler finishes exactly when the code fits the cells it grants; it
      is refused at the first byte that does not. */
  lemma CompilerFits(env: Env, src: seq<int>, slots: map<int, int>, st: State)
    requires 1 in env.programs && env.programs[1] == CompilerProgram() && env.attached && RunnerGrants(env)
    requires Source(src, slots) && OUT_BASE + ROOM !in slots
    requires st.grid == GridOf(slots) && st.steps == 0 && 117 * |src| + 16 <= env.maxSteps
    ensures CallSlot(env, 1, st).1 == if |LowerAll(src)| <= ROOM then Fall(0) else Refused
  {
    hide Source, CompilerProgram, CallSlot, LowerAll, GridOf, Granted, Grants, Roomier;
    var room := |LowerAll(src)|;
    if room <= ROOM {
      FewerCells(Grants(env), room);
      var end, slots' := CompilerRuns(env, src, slots, st);
    } else {
      var more := Roomier(env, room);
      MoreRoom(env, room);
      var end, slots' := CompilerRuns(more, src, slots, st);
      OutOfRoom(env, slots, slots', st, end);
      Gates.RefusedWhenWritten(more, env.grants, 1, st, OUT_BASE + ROOM);
    }
  }

  lemma FewerCells(g: set<int>, room: nat)
    requires Granted(g, ROOM) && room <= ROOM
    ensures Granted(g, room)
  {
  }

  lemma OutOfRoom(env: Env, slots: map<int, int>, slots': map<int, int>, st: State, end: State)
    requires OUT_BASE + ROOM !in slots && OUT_BASE + ROOM in slots'
    requires st.grid == GridOf(slots) && end.grid == GridOf(slots')
    ensures OUT_BASE + ROOM !in st.grid && OUT_BASE + ROOM in end.grid
  {
  }

  lemma EmittedCells(bytes: seq<int>, slots: map<int, int>)
    requires Emitted(bytes, slots)
    ensures forall s :: OUT_BASE <= s < OUT_BASE + |bytes| ==> s in slots && slots[s] == bytes[s - OUT_BASE]
  {
    forall s | OUT_BASE <= s < OUT_BASE + |bytes| ensures s in slots && slots[s] == bytes[s - OUT_BASE] {
      assert Cell(bytes[s - OUT_BASE], OUT_BASE + (s - OUT_BASE), slots);
    }
  }

  lemma StartsEmpty(src: seq<int>, slots: map<int, int>)
    requires Source(src, slots)
    ensures Source(src, slots[IP := 0][OP := 0]) && Emitted(LowerAll(src[..0]), slots[IP := 0][OP := 0])
  {
    var after := slots[IP := 0][OP := 0];
    forall i | 0 <= i < |src| ensures Cell(src[i], SRC_BASE + i, after) {
      assert Cell(src[i], SRC_BASE + i, slots);
    }
    assert LowerAll(src[..0]) == [];
  }
}
