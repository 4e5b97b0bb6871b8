/** What python/griddb_backend.py produces: the object code of a set of token
    programs, with labels and fixups, and its linked image. */
module Backend {
  import opened Lexicon
  import opened Native

  const NSLOT := 4096
  const NOUT := 256
  const VSTACK_N := 1024
  const OFF_SLOTS := 0
  const OFF_GRANT := NSLOT * 8
  const OFF_OUT := OFF_GRANT + NSLOT * 8
  const OFF_OUTCNT := OFF_OUT + NOUT * 8
  const OFF_HOLDER := OFF_OUTCNT + 8
  const OFF_VSTACK := OFF_HOLDER + 8
  const OFF_VTOP := OFF_VSTACK + VSTACK_N * 8
  const REFUSED := -TWO63

  datatype Label = Epilogue | Prog(slot: int) | Local(n: nat)

  /** Code, fixups, labels and the label counter of an assembly in progress. */
  datatype Obj = Obj(b: seq<Byte>, fixups: seq<(nat, Label)>, labels: map<Label, nat>, n: nat)

  const NEW_OBJ := Obj([], [], map[], 0)

  function Emit(o: Obj, i: Instr): Obj {
    o.(b := o.b + Encode(i))
  }

  function Mark(o: Obj, l: Label): Obj {
    o.(labels := o.labels[l := |o.b|])
  }

  /** A jump: its opcode, a fixup on its operand, four zero bytes. */
  function Jump(o: Obj, i: Instr, l: Label): Obj {
    o.(b := o.b + Encode(i) + Bytes(Le32(0)), fixups := o.fixups + [(|o.b| + Size(i), l)])
  }

  function VPush(o: Obj): Obj {
    Emit(Emit(o, SubR13), StoreTop)
  }

  function VPopRax(o: Obj): Obj {
    Emit(Emit(o, LoadTop), AddR13)
  }

  function VPopRbx(o: Obj): Obj {
    Emit(Emit(o, LoadTopRbx), AddR13)
  }

  function Binary(o: Obj, op: Instr): Obj {
    VPush(Emit(VPopRax(VPopRbx(o)), op))
  }

  function EmitOut(o: Obj): Obj {
    Emit(Emit(Emit(Emit(VPopRax(o), LoadRcx(OFF_OUTCNT)), StoreIndexed(OFF_OUT)), IncRcx), StoreRcx(OFF_OUTCNT))
  }

  function ArithOp(t: Token): Instr
    requires PLUS <= t <= MUL
  {
    if t == PLUS then AddRaxRbx else if t == MINUS then SubRaxRbx else MulRaxRbx
  }

  function GrantCompare(o: Obj, arg: int): Obj {
    Emit(Emit(Emit(Emit(o, LoadRax(OFF_GRANT + arg * 8)), LoadRcx(OFF_HOLDER)), IncRcx), CmpRaxRcx)
  }

  /** Store, guarded: compare the slot's grant word with holder + 1, trap to the
      epilogue with the REFUSED sentinel when they differ. */
  function StoreGuard(o: Obj, arg: int): Obj {
    var trap := Local(o.n + 1);
    Jump(GrantCompare(o.(n := o.n + 2), arg), Jcc(NotEqual), trap)
  }

  function StoreBody(o: Obj, arg: int, done: Label): Obj {
    Jump(Emit(VPopRax(o), StoreRax(OFF_SLOTS + arg * 8)), Jmp, done)
  }

  function StoreTrap(o: Obj): Obj {
    Jump(Emit(Emit(Emit(o, MovRspR14), LeaR13(OFF_VTOP)), MovRaxImm(REFUSED)), Jmp, Epilogue)
  }

  function EmitStore(o: Obj, arg: int): Obj {
    var trap, done := Local(o.n + 1), Local(o.n + 2);
    Mark(StoreTrap(Mark(StoreBody(StoreGuard(o, arg), arg, done), trap)), done)
  }

  type Compiled = Option<(Obj, nat)>

  /** Code for the tokens [i, hi); stops at RECORD. loops holds the labels of
      the enclosing loops, innermost last. None is a ValueError or IndexError. */
  function Body(toks: seq<Token>, i: nat, hi: nat, o: Obj, loops: seq<(Label, Label)>): (r: Compiled)
    requires hi <= |toks|
    ensures r.Some? ==> r.value.1 >= i
    decreases |toks| - i, 1
  {
    if i >= hi || toks[i] == RECORD then Some((o, i))
    else
      var r := BodyOne(toks, i, hi, o, loops);
      if r.None? then None else Body(toks, r.value.1, hi, r.value.0, loops)
  }

  function BodyOne(toks: seq<Token>, i: nat, hi: nat, o: Obj, loops: seq<(Label, Label)>): (r: Compiled)
    requires i < hi <= |toks|
    ensures r.Some? ==> r.value.1 > i
    decreases |toks| - i, 0
  {
    var t := toks[i];
    if t == START && IsVerb(toks, i) then
      if i + 4 >= |toks| then None
      else
        var cmd := toks[i + 4];
        var (arg, p) := if HasArg(cmd) then ReadInt(toks, i + 9, |toks|) else (0, i + 9);
        VerbCode(cmd, arg, toks, p, hi, o, loops)
    else if IsDigit(t) || IsNeg(t) then
      var (v, p) := ReadInt(toks, i, |toks|);
      ReadIntAdvances(toks, i, |toks|);
      Some((VPush(Emit(o, MovRaxImm(v))), p))
    else if PLUS <= t <= MUL then Some((Binary(o, ArithOp(t)), i + 1))
    else if t == EMIT then Some((EmitOut(o), i + 1))
    else if t == LPAREN then
      var m := Match(toks, i, |toks|);
      if m.None? then None
      else
        var r := Body(toks, i + 1, m.value, o, loops);
        if r.None? then None else Some((r.value.0, m.value + 1))
    else Some((o, i + 1))
  }

  lemma ReadIntAdvances(toks: seq<Token>, i: nat, end: nat)
    requires i < end <= |toks| && (IsDigit(toks[i]) || IsNeg(toks[i]))
    ensures ReadInt(toks, i, end).1 > i
  {
  }

  function VerbCode(cmd: Token, arg: int, toks: seq<Token>, i: nat, hi: nat, o: Obj,
      loops: seq<(Label, Label)>): (r: Compiled)
    requires hi <= |toks|
    ensures r.Some? ==> r.value.1 >= i
    decreases |toks| - i, 3
  {
    if cmd == RET then Some((Emit(o, Ret), i))
    else if cmd == CALL then Some((Jump(o, CallRel, Prog(arg)), i))
    else if cmd == READ then Some((VPush(Emit(o, LoadRax(OFF_SLOTS + arg * 8))), i))
    else if cmd == STORE then Some((EmitStore(o, arg), i))
    else if cmd == IF then
      var arms := Arms(toks, i, hi, |toks|, 3);
      if arms.None? then None
      else
        var (regions, p) := arms.value;
        var l := o.n;
        var o3 := ArmsCode(toks, i, regions, 0, l, IfHead(o), loops);
        if o3.None? then None else Some((Mark(o3.value, Local(l + 1)), p))
    else if cmd == LOOP then
      var m := Match(toks, i, |toks|);
      if m.None? then None
      else
        var top, brk := Local(o.n + 1), Local(o.n + 2);
        var r := Body(toks, i + 1, m.value, Mark(o.(n := o.n + 2), top), loops + [(top, brk)]);
        if r.None? then None
        else Some((Mark(Jump(r.value.0, Jmp, top), brk), m.value + 1))
    else if cmd == BREAK then
      Some((if loops == [] then o else Jump(o, Jmp, loops[|loops| - 1].1), i))
    else Some((o, i))
  }

  /** Pop, test, and the three-way dispatch to the labels l+2 (+), l+3 (0), l+4 (-). */
  function IfHead(o: Obj): Obj {
    var l := o.n;
    var o1 := Emit(VPopRax(o.(n := o.n + 4)), CmpRaxZero);
    Jump(Jump(Jump(o1, Jcc(Greater), Local(l + 2)), Jcc(Equal), Local(l + 3)), Jmp, Local(l + 4))
  }

  /** The arms from idx on: label, body when the region is present, jump past. */
  function ArmsCode(toks: seq<Token>, i: nat, regions: seq<(nat, nat)>, idx: nat, l: nat, o: Obj,
      loops: seq<(Label, Label)>): Option<Obj>
    requires idx <= 3 && forall a :: a in regions ==> i < a.0 <= a.1 < |toks|
    decreases |toks| - i, 2, 3 - idx
  {
    if idx == 3 then Some(o)
    else
      var o1 := Mark(o, Local(l + 2 + idx));
      var o2 := if idx < |regions| then
          assert regions[idx] in regions;
          ArmCode(toks, regions[idx], o1, loops)
        else Some(o1);
      if o2.None? then None
      else ArmsCode(toks, i, regions, idx + 1, l, Jump(o2.value, Jmp, Local(l + 1)), loops)
  }

  function ArmCode(toks: seq<Token>, arm: (nat, nat), o: Obj, loops: seq<(Label, Label)>): Option<Obj>
    requires arm.0 <= arm.1 < |toks|
    decreases |toks| - arm.0, 2
  {
    var r := Body(toks, arm.0, arm.1, o, loops);
    if r.None? then None else Some(r.value.0)
  }

  /** The position after a DEF header. */
  function SkipHeader(toks: seq<Token>, i: nat := 9): (p: nat)
    ensures p > i
    decreases |toks| - i
  {
    if i < |toks| && toks[i] != END then SkipHeader(toks, i + 1) else i + 1
  }

  function EntrySaves(): Obj {
    Emit(Emit(Emit(NEW_OBJ, PushReg(R15)), PushReg(R14)), PushReg(R13))
  }

  function Prologue(entry: int): Obj {
    Jump(Emit(Emit(Emit(EntrySaves(), MovR15Rdi), MovR14Rsp), LeaR13(OFF_VTOP)), CallRel, Prog(entry))
  }

  function Closing(o: Obj): Obj {
    Emit(Emit(Emit(Emit(Mark(o, Epilogue), PopReg(R13)), PopReg(R14)), PopReg(R15)), Ret)
  }

  type Source = seq<(int, seq<Token>)>

  /** The programs in order, each under its own label and closed by a return. */
  function ProgramsCode(progs: Source, o: Obj): Option<Obj> {
    if progs == [] then Some(o)
    else
      var o1 := ProgramCode(progs[0], o);
      if o1.None? then None else ProgramsCode(progs[1..], o1.value)
  }

  function ProgramCode(p: (int, seq<Token>), o: Obj): Option<Obj> {
    var r := Body(p.1, SkipHeader(p.1), |p.1|, Mark(o, Prog(p.0)), []);
    if r.None? then None else Some(Emit(r.value.0, Ret))
  }

  function ObjectCode(progs: Source, entry: int): Option<Obj> {
    ProgramsCode(progs, Closing(Prologue(entry)))
  }

  // ----- linking -----

  function Patch(b: seq<Byte>, pos: nat, v: int): (r: seq<Byte>)
    requires pos + 4 <= |b|
    ensures |r| == |b|
  {
    b[..pos] + Bytes(Le32(v)) + b[pos + 4..]
  }

  /** Writes each fixup's relative distance; None is an unknown label or a
      field outside the code. */
  function Resolve(b: seq<Byte>, fixups: seq<(nat, Label)>, labels: map<Label, nat>): Option<seq<Byte>>
    decreases |fixups|
  {
    if fixups == [] then Some(b)
    else
      var (pos, l) := fixups[0];
      if l !in labels || pos + 4 > |b| then None
      else Resolve(Patch(b, pos, labels[l] - (pos + 4)), fixups[1..], labels)
  }

  function CompileAll(progs: Source, entry: int): Option<seq<Byte>> {
    var o := ObjectCode(progs, entry);
    if o.None? then None else Resolve(o.value.b, o.value.fixups, o.value.labels)
  }
}
