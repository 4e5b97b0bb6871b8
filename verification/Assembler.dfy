/** The objects of python/griddb_backend.py: the assembler, with its growing
    code, fixups and labels, and the compiler that drives it. Every method is
    tied to the object code Backend gives for the same tokens. */
module Assembler {
  import opened Lexicon
  import opened Readers
  import opened Native
  import B = Backend
  import opened Backend

  class Asm {
    var b: seq<Byte>
    var fixups: seq<(nat, Label)>
    var labels: map<Label, nat>

    constructor ()
      ensures b == [] && fixups == [] && labels == map[]
    {
      b, fixups, labels := [], [], map[];
    }

    ghost function Now(n: nat): Obj
      reads this
    {
      Obj(b, fixups, labels, n)
    }

    method EmitInstr(i: Instr)
      modifies this`b
      ensures forall n: nat :: Now(n) == B.Emit(old(Now(n)), i)
    {
      b := b + Encode(i);
    }

    method Label(l: Label)
      modifies this`labels
      ensures forall n: nat :: Now(n) == B.Mark(old(Now(n)), l)
    {
      labels := labels[l := |b|];
    }

    method JumpTo(i: Instr, l: Label)
      modifies this`b, this`fixups
      ensures forall n: nat :: Now(n) == B.Jump(old(Now(n)), i, l)
    {
      b := b + Encode(i);
      fixups := fixups + [(|b|, l)];
      b := b + Bytes(Le32(0));
    }

    method Push()
      modifies this`b
      ensures forall n: nat :: Now(n) == B.VPush(old(Now(n)))
    {
      EmitInstr(SubR13);
      EmitInstr(StoreTop);
    }

    method PopRax()
      modifies this`b
      ensures forall n: nat :: Now(n) == B.VPopRax(old(Now(n)))
    {
      EmitInstr(LoadTop);
      EmitInstr(AddR13);
    }

    method PopRbx()
      modifies this`b
      ensures forall n: nat :: Now(n) == B.VPopRbx(old(Now(n)))
    {
      EmitInstr(LoadTopRbx);
      EmitInstr(AddR13);
    }

    /** Patches every fixup in place; fails on a label nobody placed. */
    method Link() returns (ok: bool)
      modifies this`b
      ensures ok <==> Resolve(old(b), fixups, labels).Some?
      ensures ok ==> Resolve(old(b), fixups, labels) == Some(b)
    {
      var k := 0;
      while k < |fixups|
        invariant 0 <= k <= |fixups|
        invariant Resolve(old(b), fixups, labels) == Resolve(b, fixups[k..], labels)
      {
        var (pos, l) := fixups[k];
        assert fixups[k..][1..] == fixups[k + 1..];
        if l !in labels || pos + 4 > |b| {
          return false;
        }
        var rel: int := labels[l] as int - (pos + 4);
        b := b[..pos] + Bytes(Le32(rel)) + b[pos + 4..];
        k := k + 1;
      }
      ok := true;
    }
  }

  class Compiler {
    const progs: Source
    const a: Asm
    var loops: seq<(Label, Label)>
    var n: nat

    constructor (progs: Source)
      ensures this.progs == progs && fresh(a) && Now() == NEW_OBJ && loops == []
    {
      this.progs := progs;
      a := new Asm();
      loops, n := [], 0;
    }

    ghost function Now(): Obj
      reads this, a
    {
      a.Now(n)
    }

    method NewLabel() returns (l: Label)
      modifies this`n
      ensures n == old(n) + 1 && l == Local(n)
    {
      n := n + 1;
      l := Local(n);
    }

    method CompileAll(entry: int) returns (img: Option<seq<Byte>>)
      requires Now() == NEW_OBJ && loops == []
      modifies this`n, this`loops, a
      ensures img == B.CompileAll(progs, entry)
    {
      EntryCode(entry);
      var k := 0;
      while k < |progs|
        invariant 0 <= k <= |progs| && loops == []
        invariant ProgramsCode(progs, Closing(Prologue(entry))) == ProgramsCode(progs[k..], Now())
      {
        assert progs[k..][1..] == progs[k + 1..] && progs[k..][0] == progs[k];
        a.Label(Prog(progs[k].0));
        var toks := progs[k].1;
        var i := Header(toks);
        var r := BodyCode(toks, i, |toks|);
        if r.None? {
          return None;
        }
        a.EmitInstr(Ret);
        k := k + 1;
      }
      var ok := a.Link();
      img := if ok then Some(a.b) else None;
    }

    method EntryCode(entry: int)
      requires Now() == NEW_OBJ
      modifies a
      ensures Now() == Closing(Prologue(entry))
    {
      a.EmitInstr(PushReg(R15));
      a.EmitInstr(PushReg(R14));
      a.EmitInstr(PushReg(R13));
      assert Now() == EntrySaves();
      a.EmitInstr(MovR15Rdi);
      a.EmitInstr(MovR14Rsp);
      a.EmitInstr(LeaR13(OFF_VTOP));
      a.JumpTo(CallRel, Prog(entry));
      assert Now() == Prologue(entry);
      a.Label(Epilogue);
      a.EmitInstr(PopReg(R13));
      a.EmitInstr(PopReg(R14));
      a.EmitInstr(PopReg(R15));
      a.EmitInstr(Ret);
    }

    method BodyCode(toks: seq<Token>, start: nat, hi: nat) returns (r: Option<nat>)
      requires hi <= |toks|
      modifies this`n, this`loops, a
      ensures r.Some? <==> Body(toks, start, hi, old(Now()), old(loops)).Some?
      ensures r.Some? ==> Body(toks, start, hi, old(Now()), old(loops)) == Some((Now(), r.value)) && loops == old(loops)
      decreases |toks| - start, 1
    {
      var i: nat := start;
      while i < hi && toks[i] != RECORD
        invariant start <= i && loops == old(loops)
        invariant Body(toks, start, hi, old(Now()), old(loops)) == Body(toks, i, hi, Now(), loops)
        decreases |toks| - i
      {
        var next := OneCode(toks, i, hi);
        if next.None? {
          return None;
        }
        i := next.value;
      }
      r := Some(i);
    }

    method OneCode(toks: seq<Token>, i: nat, hi: nat) returns (r: Option<nat>)
      requires i < hi <= |toks|
      modifies this`n, this`loops, a
      ensures r.Some? <==> BodyOne(toks, i, hi, old(Now()), old(loops)).Some?
      ensures r.Some? ==> BodyOne(toks, i, hi, old(Now()), old(loops)) == Some((Now(), r.value)) && loops == old(loops)
      decreases |toks| - i, 0
    {
      var t := toks[i];
      if t == START && IsVerb(toks, i) {
        if i + 4 >= |toks| {
          return None;
        }
        var cmd := toks[i + 4];
        var arg, p := 0, i + 9;
        if HasArg(cmd) {
          arg, p := ScanInt(toks, p, |toks|);
        }
        r := VerbFor(cmd, arg, toks, p, hi);
      } else if IsDigit(t) || IsNeg(t) {
        var v, p := ScanInt(toks, i, |toks|);
        a.EmitInstr(MovRaxImm(v));
        a.Push();
        r := Some(p);
      } else if PLUS <= t <= MUL {
        a.PopRbx();
        a.PopRax();
        a.EmitInstr(ArithOp(t));
        a.Push();
        r := Some(i + 1);
      } else if t == EMIT {
        a.PopRax();
        a.EmitInstr(LoadRcx(OFF_OUTCNT));
        a.EmitInstr(StoreIndexed(OFF_OUT));
        a.EmitInstr(IncRcx);
        a.EmitInstr(StoreRcx(OFF_OUTCNT));
        r := Some(i + 1);
      } else if t == LPAREN {
        var close := FindClose(toks, i, |toks|);
        if close.None? {
          return None;
        }
        var inner := BodyCode(toks, i + 1, close.value);
        r := if inner.None? then None else Some(close.value + 1);
      } else {
        r := Some(i + 1);
      }
    }

    method VerbFor(cmd: Token, arg: int, toks: seq<Token>, i: nat, hi: nat) returns (r: Option<nat>)
      requires hi <= |toks|
      modifies this`n, this`loops, a
      ensures r.Some? <==> VerbCode(cmd, arg, toks, i, hi, old(Now()), old(loops)).Some?
      ensures r.Some? ==>
                VerbCode(cmd, arg, toks, i, hi, old(Now()), old(loops)) == Some((Now(), r.value)) && loops == old(loops)
      decreases |toks| - i, 3
    {
      hide Arms, Match;
      if cmd == RET {
        a.EmitInstr(Ret);
        r := Some(i);
      } else if cmd == CALL {
        a.JumpTo(CallRel, Prog(arg));
        r := Some(i);
      } else if cmd == READ {
        a.EmitInstr(LoadRax(OFF_SLOTS + arg * 8));
        a.Push();
        r := Some(i);
      } else if cmd == STORE {
        GuardedStore(arg);
        r := Some(i);
      } else if cmd == IF {
        r := Branches(toks, i, hi);
      } else if cmd == LOOP {
        r := Looping(toks, i, hi);
      } else if cmd == BREAK {
        if loops != [] {
          a.JumpTo(Jmp, loops[|loops| - 1].1);
        }
        r := Some(i);
      } else {
        r := Some(i);
      }
    }

    method GuardedStore(arg: int)
      modifies this`n, a
      ensures Now() == EmitStore(old(Now()), arg)
    {
      hide GrantCompare, StoreBody, StoreTrap, Emit, Jump;
      var trap := NewLabel();
      var done := NewLabel();
      CompareGrant(arg);
      a.JumpTo(Jcc(NotEqual), trap);
      WriteSlot(arg, done);
      a.Label(trap);
      Refuse();
      a.Label(done);
    }

    method CompareGrant(arg: int)
      modifies a
      ensures Now() == GrantCompare(old(Now()), arg)
    {
      a.EmitInstr(LoadRax(OFF_GRANT + arg * 8));
      a.EmitInstr(LoadRcx(OFF_HOLDER));
      a.EmitInstr(IncRcx);
      a.EmitInstr(CmpRaxRcx);
    }

    method WriteSlot(arg: int, done: Label)
      modifies a
      ensures Now() == StoreBody(old(Now()), arg, done)
    {
      a.PopRax();
      a.EmitInstr(StoreRax(OFF_SLOTS + arg * 8));
      a.JumpTo(Jmp, done);
    }

    method Refuse()
      modifies a
      ensures Now() == StoreTrap(old(Now()))
    {
      a.EmitInstr(MovRspR14);
      a.EmitInstr(LeaR13(OFF_VTOP));
      a.EmitInstr(MovRaxImm(REFUSED));
      a.JumpTo(Jmp, Epilogue);
    }

    /** The label past the IF and the labels of its three arms, tested and
        dispatched to. */
    method Dispatcher() returns (done: Label, arms: seq<Label>)
      modifies this`n, a
      ensures Now() == IfHead(old(Now())) && done == Local(old(n) + 1)
      ensures |arms| == 3 && forall k :: 0 <= k < 3 ==> arms[k] == Local(old(n) + 2 + k)
    {
      hide Emit, Jump, VPopRax;
      done := NewLabel();
      var ap := NewLabel();
      var az := NewLabel();
      var an := NewLabel();
      a.PopRax();
      a.EmitInstr(CmpRaxZero);
      a.JumpTo(Jcc(Greater), ap);
      a.JumpTo(Jcc(Equal), az);
      a.JumpTo(Jmp, an);
      arms := [ap, az, an];
    }

    method ArmBodies(toks: seq<Token>, i: nat, regions: seq<(nat, nat)>, done: Label, labels: seq<Label>, ghost l: nat)
        returns (ok: bool)
      requires forall a :: a in regions ==> i < a.0 <= a.1 < |toks|
      requires done == Local(l + 1) && |labels| == 3 && forall k :: 0 <= k < 3 ==> labels[k] == Local(l + 2 + k)
      modifies this`n, this`loops, a
      ensures ok <==> ArmsCode(toks, i, regions, 0, l, old(Now()), old(loops)).Some?
      ensures ok ==> ArmsCode(toks, i, regions, 0, l, old(Now()), old(loops)) == Some(Now()) && loops == old(loops)
      decreases |toks| - i, 1
    {
      hide Body, Jump, Mark;
      var idx := 0;
      while idx < 3
        invariant 0 <= idx <= 3 && loops == old(loops)
        invariant ArmsCode(toks, i, regions, 0, l, old(Now()), old(loops))
                  == ArmsCode(toks, i, regions, idx, l, Now(), loops)
      {
        a.Label(labels[idx]);
        if idx < |regions| {
          assert regions[idx] in regions;
          var arm := BodyCode(toks, regions[idx].0, regions[idx].1);
          if arm.None? {
            return false;
          }
        }
        a.JumpTo(Jmp, done);
        idx := idx + 1;
      }
      ok := true;
    }

    method Branches(toks: seq<Token>, i: nat, hi: nat) returns (r: Option<nat>)
      requires hi <= |toks|
      modifies this`n, this`loops, a
      ensures r.Some? <==> VerbCode(IF, 0, toks, i, hi, old(Now()), old(loops)).Some?
      ensures r.Some? ==>
                VerbCode(IF, 0, toks, i, hi, old(Now()), old(loops)) == Some((Now(), r.value)) && loops == old(loops)
      decreases |toks| - i, 2
    {
      hide Arms, ArmsCode, IfHead;
      ghost var l := n;
      var arms := CollectArms(toks, i, hi, |toks|);
      if arms.None? {
        return None;
      }
      var (regions, p) := arms.value;
      var done, labels := Dispatcher();
      var ok := ArmBodies(toks, i, regions, done, labels, l);
      if !ok {
        return None;
      }
      a.Label(done);
      r := Some(p);
    }

    method Looping(toks: seq<Token>, i: nat, hi: nat) returns (r: Option<nat>)
      requires hi <= |toks|
      modifies this`n, this`loops, a
      ensures r.Some? <==> VerbCode(LOOP, 0, toks, i, hi, old(Now()), old(loops)).Some?
      ensures r.Some? ==>
                VerbCode(LOOP, 0, toks, i, hi, old(Now()), old(loops)) == Some((Now(), r.value)) && loops == old(loops)
      decreases |toks| - i, 2
    {
      hide Match, Body, Jump, Mark, Emit;
      var close := FindClose(toks, i, |toks|);
      if close.None? {
        return None;
      }
      var top := NewLabel();
      var brk := NewLabel();
      loops := loops + [(top, brk)];
      a.Label(top);
      var inner := BodyCode(toks, i + 1, close.value);
      if inner.None? {
        return None;
      }
      a.JumpTo(Jmp, top);
      a.Label(brk);
      loops := loops[..|loops| - 1];
      r := Some(close.value + 1);
    }
  }

  method Header(toks: seq<Token>) returns (p: nat)
    ensures p == SkipHeader(toks)
  {
    var i: nat := 9;
    while i < |toks| && toks[i] != END
      invariant SkipHeader(toks) == SkipHeader(toks, i)
      decreases |toks| - i
    {
      i := i + 1;
    }
    p := i + 1;
  }
}
