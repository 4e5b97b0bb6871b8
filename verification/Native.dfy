/** The fragment of a 64-bit processor that python/griddb_backend.py targets.
    Machine code is a sequence of byte cells: each instruction is a Head cell
    followed by fillers, so sizes and offsets are the real ones; only the four
    operand bytes of a relative jump, which the linker patches, are numbers. */
module Native {

  // ----- fixed-width arithmetic -----

  const TWO32 := 0x1_0000_0000
  const TWO63 := 0x8000_0000_0000_0000
  const TWO64 := 0x1_0000_0000_0000_0000

  /** Two's complement reading of the low 64 bits. */
  function Word(v: int): int {
    (v + TWO63) % TWO64 - TWO63
  }

  /** Two's complement reading of the low 32 bits. */
  function Int32(v: int): int {
    (v + 0x8000_0000) % TWO32 - 0x8000_0000
  }

  type Octet = v: int | 0 <= v < 256

  function Le32(v: int): seq<Octet> {
    var u := v % TWO32;
    [u % 256, u / 256 % 256, u / 256 / 256 % 256, u / 256 / 256 / 256]
  }

  function FromLe32(a: Octet, b: Octet, c: Octet, d: Octet): int {
    Int32(a + 0x100 * b + 0x1_0000 * c + 0x100_0000 * d)
  }

  lemma Int32Id(v: int)
    requires -0x8000_0000 <= v < 0x8000_0000
    ensures Int32(v % TWO32) == v && Int32(v) == v
  {
    if v < 0 {
      assert v % TWO32 == v + TWO32;
    }
  }

  lemma Le32RoundTrip(v: int)
    requires -0x8000_0000 <= v < 0x8000_0000
    ensures FromLe32(Le32(v)[0], Le32(v)[1], Le32(v)[2], Le32(v)[3]) == v
  {
    hide Int32;
    Int32Id(v);
    var u := v % TWO32;
    var x, y, z := u / 256, u / 256 / 256, u / 256 / 256 / 256;
    assert u == 256 * x + u % 256 && x == 256 * y + x % 256 && y == 256 * z + y % 256;
  }

  // ----- instructions -----

  datatype Saved = R13 | R14 | R15
  datatype Cond = Greater | Equal | NotEqual

  datatype Instr =
    | PushReg(r: Saved) | PopReg(r: Saved)
    | MovR15Rdi | MovR14Rsp | MovRspR14
    | LeaR13(disp: int)
    | MovRaxImm(imm: int)
    | SubR13 | AddR13 | StoreTop | LoadTop | LoadTopRbx
    | AddRaxRbx | SubRaxRbx | MulRaxRbx
    | LoadRcx(disp: int) | StoreRcx(disp: int) | StoreIndexed(disp: int) | IncRcx
    | LoadRax(disp: int) | StoreRax(disp: int)
    | CmpRaxRcx | CmpRaxZero
    | Ret
    | Jmp | CallRel | Jcc(cc: Cond)

  predicate IsJump(i: Instr) {
    i.Jmp? || i.CallRel? || i.Jcc?
  }

  /** Encoded length; for a jump, of its opcode alone. */
  function Size(i: Instr): nat {
    match i
    case PushReg(_) | PopReg(_) | Jcc(_) => 2
    case MovR15Rdi | MovR14Rsp | MovRspR14 | AddRaxRbx | SubRaxRbx | IncRcx | CmpRaxRcx => 3
    case SubR13 | AddR13 | StoreTop | LoadTop | LoadTopRbx | MulRaxRbx | CmpRaxZero => 4
    case LeaR13(_) | LoadRcx(_) | StoreRcx(_) | LoadRax(_) | StoreRax(_) => 7
    case StoreIndexed(_) => 8
    case MovRaxImm(_) => 10
    case Ret | Jmp | CallRel => 1
  }

  datatype Byte = Head(i: Instr) | Tail | Imm(v: Octet)

  function Encode(i: Instr): (bs: seq<Byte>)
    ensures |bs| == Size(i) && bs[0] == Head(i)
    ensures forall k :: 0 < k < |bs| ==> bs[k] == Tail
  {
    [Head(i)] + seq(Size(i) - 1, _ => Tail)
  }

  function Bytes(os: seq<Octet>): (bs: seq<Byte>)
    ensures |bs| == |os|
  {
    seq(|os|, k requires 0 <= k < |os| => Imm(os[k]))
  }

  // ----- the processor -----

  /** Memory is the arena, in 8-byte cells; addresses are offsets from its base.
      cmp is the exact difference the last comparison saw, rsp is |stk|. */
  datatype Cpu = Cpu(pc: int, rax: int, rbx: int, rcx: int, r13: int, r14: int, r15: int, rdi: int,
                     cmp: int, stk: seq<int>, mem: seq<int>)

  const EXIT := -1   // return address of the caller
  const FAULT := -2  // an access outside the arena or the call stack

  predicate InArena(c: Cpu, addr: int) {
    0 <= addr < 8 * |c.mem| && addr % 8 == 0
  }

  function Load(c: Cpu, addr: int): int
    requires InArena(c, addr)
  {
    c.mem[addr / 8]
  }

  function Store(c: Cpu, addr: int, v: int): Cpu
    requires InArena(c, addr)
  {
    c.(mem := c.mem[addr / 8 := v])
  }

  function Trap(c: Cpu): Cpu {
    c.(pc := FAULT)
  }

  predicate Taken(cc: Cond, cmp: int) {
    match cc
    case Greater => cmp > 0
    case Equal => cmp == 0
    case NotEqual => cmp != 0
  }

  function Saves(c: Cpu, r: Saved): int {
    match r case R13 => c.r13 case R14 => c.r14 case R15 => c.r15
  }

  function Restore(c: Cpu, r: Saved, v: int): Cpu {
    match r case R13 => c.(r13 := v) case R14 => c.(r14 := v) case R15 => c.(r15 := v)
  }

  /** What one instruction does; next is the address after it, target where
      its jump leads. */
  function Effect(i: Instr, s: Cpu, next: int, target: int): Cpu {
    var c := s.(pc := next);
    match i
    case PushReg(r) => c.(stk := c.stk + [Saves(c, r)])
    case PopReg(r) => if c.stk == [] then Trap(s) else Restore(c.(stk := c.stk[..|c.stk| - 1]), r, c.stk[|c.stk| - 1])
    case MovR15Rdi => c.(r15 := c.rdi)
    case MovR14Rsp => c.(r14 := |c.stk|)
    case MovRspR14 => if 0 <= c.r14 <= |c.stk| then c.(stk := c.stk[..c.r14]) else Trap(s)
    case LeaR13(d) => c.(r13 := c.r15 + Int32(d))
    case MovRaxImm(v) => c.(rax := Word(v))
    case SubR13 => c.(r13 := c.r13 - 8)
    case AddR13 => c.(r13 := c.r13 + 8)
    case StoreTop => if InArena(c, c.r13) then Store(c, c.r13, c.rax) else Trap(s)
    case LoadTop => if InArena(c, c.r13) then c.(rax := Load(c, c.r13)) else Trap(s)
    case LoadTopRbx => if InArena(c, c.r13) then c.(rbx := Load(c, c.r13)) else Trap(s)
    case AddRaxRbx => c.(rax := Word(c.rax + c.rbx))
    case SubRaxRbx => c.(rax := Word(c.rax - c.rbx))
    case MulRaxRbx => c.(rax := Word(c.rax * c.rbx))
    case LoadRcx(d) => if InArena(c, c.r15 + Int32(d)) then c.(rcx := Load(c, c.r15 + Int32(d))) else Trap(s)
    case StoreRcx(d) => if InArena(c, c.r15 + Int32(d)) then Store(c, c.r15 + Int32(d), c.rcx) else Trap(s)
    case StoreIndexed(d) =>
      var addr := c.r15 + 8 * c.rcx + Int32(d);
      if InArena(c, addr) then Store(c, addr, c.rax) else Trap(s)
    case IncRcx => c.(rcx := Word(c.rcx + 1))
    case LoadRax(d) => if InArena(c, c.r15 + Int32(d)) then c.(rax := Load(c, c.r15 + Int32(d))) else Trap(s)
    case StoreRax(d) => if InArena(c, c.r15 + Int32(d)) then Store(c, c.r15 + Int32(d), c.rax) else Trap(s)
    case CmpRaxRcx => c.(cmp := c.rax - c.rcx)
    case CmpRaxZero => c.(cmp := c.rax)
    case Ret => if c.stk == [] then Trap(s) else c.(pc := c.stk[|c.stk| - 1], stk := c.stk[..|c.stk| - 1])
    case Jmp => c.(pc := target)
    case CallRel => c.(pc := target, stk := c.stk + [next])
    case Jcc(cc) => if Taken(cc, c.cmp) then c.(pc := target) else c
  }

  /** The jump operand at p, sign-extended. */
  function Operand(img: seq<Byte>, p: int): int
    requires 0 <= p && p + 4 <= |img| && forall k :: p <= k < p + 4 ==> img[k].Imm?
  {
    FromLe32(img[p].v, img[p + 1].v, img[p + 2].v, img[p + 3].v)
  }

  /** One step: fetch at pc, execute. Where no instruction starts, nothing moves. */
  function Step(img: seq<Byte>, c: Cpu): Cpu {
    if 0 <= c.pc < |img| && img[c.pc].Head? then
      var i := img[c.pc].i;
      var p := c.pc + Size(i);
      if !IsJump(i) then Effect(i, c, p, p)
      else if p + 4 <= |img| && forall k :: p <= k < p + 4 ==> img[k].Imm? then
        Effect(i, c, p + 4, p + 4 + Operand(img, p))
      else Trap(c)
    else c
  }

  function Steps(img: seq<Byte>, c: Cpu, n: nat): Cpu
    decreases n
  {
    if n == 0 then c else Steps(img, Step(img, c), n - 1)
  }

  ghost predicate Reaches(img: seq<Byte>, c: Cpu, c': Cpu) {
    exists n: nat :: Steps(img, c, n) == c'
  }

  lemma {:induction false} StepsAdd(img: seq<Byte>, c: Cpu, m: nat, n: nat)
    ensures Steps(img, c, m + n) == Steps(img, Steps(img, c, m), n)
    decreases m
  {
    if m > 0 {
      StepsAdd(img, Step(img, c), m - 1, n);
    }
  }

  lemma ReachesTrans(img: seq<Byte>, a: Cpu, b: Cpu, c: Cpu)
    requires Reaches(img, a, b) && Reaches(img, b, c)
    ensures Reaches(img, a, c)
  {
    var m: nat :| Steps(img, a, m) == b;
    var n: nat :| Steps(img, b, n) == c;
    StepsAdd(img, a, m, n);
  }

  lemma ReachesSelf(img: seq<Byte>, c: Cpu)
    ensures Reaches(img, c, c)
  {
    assert Steps(img, c, 0) == c;
  }

  lemma ReachesStep(img: seq<Byte>, c: Cpu)
    ensures Reaches(img, c, Step(img, c))
  {
    assert Steps(img, Step(img, c), 0) == Step(img, c);
    assert Steps(img, c, 1) == Step(img, c);
  }
}
