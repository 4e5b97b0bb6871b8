/** What the processor makes of the bytes the self-hosted compiler leaves: the few
    x86-64 instructions it uses, over 64-bit registers and the machine stack
    (python/griddb_compiler5b.py, python/griddb_selfhost.py). */
module Lowered {
  import opened Lexicon
  import opened Compiler5b

  const TWO64: nat := 0x1_0000_0000_0000_0000

  /** The 64-bit word of an integer. */
  function Word(v: int): nat {
    v % TWO64
  }

  /** The integer a register holds, read as signed. */
  function AsSigned(w: nat): int {
    if w < TWO64 / 2 then w else w - TWO64
  }

  /** A called function's registers; the stack holds what it pushed since the call. */
  datatype Cpu = Cpu(rax: nat, rbx: nat, stack: seq<nat>)

  datatype End = Returned(rax: nat) | Fault

  function Pushed(c: Cpu): Cpu {
    c.(stack := c.stack + [c.rax])
  }

  /** Little-endian. */
  function Imm64(bytes: seq<int>): int {
    if bytes == [] then 0 else bytes[0] + 256 * Imm64(bytes[1..])
  }

  datatype Instr = MovRax(imm: int) | PushRax | PopRbx | PopRax | AddRbx | SubRbx | MulRbx | Ret

  /** The k-th byte, or -1 past the end. */
  function ByteAt(code: seq<int>, k: nat): int {
    if k < |code| then code[k] else -1
  }

  /** The instruction at the head of the code, and its length. */
  function Decode(code: seq<int>): (r: Option<(Instr, nat)>)
    ensures r.Some? ==> 0 < r.value.1 <= |code|
  {
    var b0, b1, b2, b3 := ByteAt(code, 0), ByteAt(code, 1), ByteAt(code, 2), ByteAt(code, 3);
    if b0 == 0x48 && b1 == 0xB8 && |code| >= 10 then Some((MovRax(Imm64(code[2..10])), 10))
    else if b0 == 0x50 then Some((PushRax, 1))
    else if b0 == 0x5B then Some((PopRbx, 1))
    else if b0 == 0x58 then Some((PopRax, 1))
    else if b0 == 0x48 && b1 == 0x01 && b2 == 0xD8 then Some((AddRbx, 3))
    else if b0 == 0x48 && b1 == 0x29 && b2 == 0xD8 then Some((SubRbx, 3))
    else if b0 == 0x48 && b1 == 0x0F && b2 == 0xAF && b3 == 0xC3 then Some((MulRbx, 4))
    else if b0 == 0xC3 then Some((Ret, 1))
    else None
  }

  /** The registers after an instruction other than Ret; None for a pop past what
      the function has pushed. */
  function Step(i: Instr, c: Cpu): Option<Cpu> {
    match i
    case MovRax(v) => Some(c.(rax := Word(v)))
    case PushRax => Some(Pushed(c))
    case PopRbx => if c.stack == [] then None else Some(Popped(c).(rbx := c.stack[|c.stack| - 1]))
    case PopRax => if c.stack == [] then None else Some(Popped(c).(rax := c.stack[|c.stack| - 1]))
    case AddRbx => Some(c.(rax := Word(c.rax + c.rbx)))
    case SubRbx => Some(c.(rax := Word(c.rax - c.rbx)))
    case MulRbx => Some(c.(rax := Word(c.rax * c.rbx)))
    case Ret => None
  }

  function Popped(c: Cpu): Cpu
    requires c.stack != []
  {
    c.(stack := c.stack[..|c.stack| - 1])
  }

  /** Popping past what was pushed, or returning over it, leaves the function's
      frame and is a fault, as is any byte that starts no known instruction. */
  function Execute(code: seq<int>, c: Cpu): End
    decreases |code|
  {
    var d := Decode(code);
    if d.None? then Fault
    else if d.value.0.Ret? then if c.stack == [] then Returned(c.rax) else Fault
    else
      var c' := Step(d.value.0, c);
      if c'.None? then Fault else Execute(code[d.value.1..], c'.value)
  }

  // ----- postfix -----

  datatype Answer = Value(v: int) | Malformed

  function Combine(t: int, a: int, b: int): int {
    if t == 10 then a + b else if t == 11 then a - b else a * b
  }

  /** Exact postfix evaluation up to the first token that ends, which must find one
      value on the stack. */
  function Postfix(src: seq<int>, stack: seq<int>): Answer
    decreases |src|
  {
    if src == [] then Malformed
    else
      var t := src[0];
      if t < 10 then Postfix(src[1..], stack + [t])
      else if t <= 12 then
        if |stack| < 2 then Malformed
        else Postfix(src[1..], stack[..|stack| - 2] + [Combine(t, stack[|stack| - 2], stack[|stack| - 1])])
      else if |stack| == 1 then Value(stack[0])
      else Malformed
  }

  function Words(stack: seq<int>): (ws: seq<nat>)
    ensures |ws| == |stack|
  {
    seq(|stack|, i requires 0 <= i < |stack| => Word(stack[i]))
  }

  lemma WordOf(v: int, k: int)
    ensures Word(v + k * TWO64) == Word(v)
  {
    var r := v % TWO64;
    var q := v / TWO64;
    assert v + k * TWO64 == (q + k) * TWO64 + r;
    Quotient(v + k * TWO64, q + k, r);
  }

  lemma Quotient(x: int, q: int, r: int)
    requires x == q * TWO64 + r && 0 <= r < TWO64
    ensures x % TWO64 == r
  {
  }

  /** Wrapping early or late makes no difference. */
  lemma WordCombine(t: int, a: int, b: int)
    ensures Word(Combine(t, Word(a), Word(b))) == Word(Combine(t, a, b))
  {
    hide Word;
    var x: int, y: int := Word(a), Word(b);
    var p, q := Wraps(a), Wraps(b);
    if t == 10 {
      WordOf(x + y, p + q);
    } else if t == 11 {
      WordOf(x - y, p - q);
    } else {
      WordTimes(x, p, y, q);
    }
  }

  /** How often a number wraps. */
  function Wraps(a: int): (p: int)
    ensures a == Word(a) + p * TWO64
  {
    a / TWO64
  }

  lemma WordTimes(x: int, p: int, y: int, q: int)
    ensures Word((x + p * TWO64) * (y + q * TWO64)) == Word(x * y)
  {
    hide Word;
    Product(x, y, p, q);
    WordOf(x * y, x * q + p * y + p * q * TWO64);
  }

  lemma Product(x: int, y: int, p: int, q: int)
    ensures (x + p * TWO64) * (y + q * TWO64) == x * y + (x * q + p * y + p * q * TWO64) * TWO64
  {
    Expand(x, p * TWO64, y, q * TWO64);
    Scale(x, q, TWO64);
    Scale(p, y, TWO64);
    Scale(p, q * TWO64, TWO64);
    Scale(p, q, TWO64);
    Expand(x * q + p * y, p * q * TWO64, TWO64, 0);
    Expand(x * q, p * y, TWO64, 0);
  }

  lemma Expand(x: int, a: int, y: int, b: int)
    ensures (x + a) * (y + b) == x * y + x * b + a * y + a * b
  {
    assert (x + a) * (y + b) == x * (y + b) + a * (y + b);
  }

  lemma Scale(a: int, b: int, m: int)
    ensures a * (b * m) == a * b * m && a * m * b == a * b * m
  {
  }

  // ----- one lowering at a time -----

  /** An instruction and what follows it. */
  lemma One(bytes: seq<int>, rest: seq<int>, i: Instr, c: Cpu)
    requires Decode(bytes + rest) == Some((i, |bytes|))
    ensures Execute(bytes + rest, c) ==
      if i.Ret? then (if c.stack == [] then Returned(c.rax) else Fault)
      else if Step(i, c).None? then Fault
      else Execute(rest, Step(i, c).value)
  {
    hide Decode, Step;
    assert (bytes + rest)[|bytes|..] == rest;
  }

  lemma DecodesPush(rest: seq<int>)
    ensures Decode([0x50] + rest) == Some((PushRax, 1))
  {
  }

  lemma DecodesPops(rest: seq<int>)
    ensures Decode([0x5B] + rest) == Some((PopRbx, 1)) && Decode([0x58] + rest) == Some((PopRax, 1))
  {
  }

  lemma DecodesRet(rest: seq<int>)
    ensures Decode([0xC3] + rest) == Some((Ret, 1))
  {
  }

  lemma DecodesAdd(rest: seq<int>)
    ensures Decode([0x48, 0x01, 0xD8] + rest) == Some((AddRbx, 3))
  {
  }

  lemma DecodesSub(rest: seq<int>)
    ensures Decode([0x48, 0x29, 0xD8] + rest) == Some((SubRbx, 3))
  {
  }

  lemma DecodesMul(rest: seq<int>)
    ensures Decode([0x48, 0x0F, 0xAF, 0xC3] + rest) == Some((MulRbx, 4))
  {
  }

  lemma DecodesMov(d: int, rest: seq<int>)
    ensures Decode([0x48, 0xB8, d, 0, 0, 0, 0, 0, 0, 0] + rest) == Some((MovRax(d), 10))
  {
    var code := [0x48, 0xB8, d, 0, 0, 0, 0, 0, 0, 0] + rest;
    assert code[2..10] == [d, 0, 0, 0, 0, 0, 0, 0];
    ZerosAbove(d);
    hide Imm64;
  }

  lemma LiteralExecutes(d: int, rest: seq<int>, c: Cpu)
    requires 0 <= d <= 9
    ensures Execute(LiteralCode(d) + rest, c) == Execute(rest, Pushed(c.(rax := d)))
  {
    hide Execute, Decode;
    var mov := [0x48, 0xB8, d, 0, 0, 0, 0, 0, 0, 0];
    assert LiteralCode(d) + rest == mov + ([0x50] + rest);
    DecodesMov(d, [0x50] + rest);
    One(mov, [0x50] + rest, MovRax(d), c);
    DecodesPush(rest);
    One([0x50], rest, PushRax, c.(rax := d));
  }

  lemma ZerosAbove(d: int)
    ensures Imm64([d, 0, 0, 0, 0, 0, 0, 0]) == d
  {
    assert Imm64([]) == 0;
    assert [0][1..] == [] && [0, 0][1..] == [0] && [0, 0, 0][1..] == [0, 0] && [0, 0, 0, 0][1..] == [0, 0, 0];
    assert Imm64([0]) == 0;
    assert Imm64([0, 0]) == 0;
    assert Imm64([0, 0, 0]) == 0;
    assert Imm64([0, 0, 0, 0]) == 0;
    assert [0, 0, 0, 0, 0][1..] == [0, 0, 0, 0] && [0, 0, 0, 0, 0, 0][1..] == [0, 0, 0, 0, 0];
    assert Imm64([0, 0, 0, 0, 0]) == 0;
    assert Imm64([0, 0, 0, 0, 0, 0]) == 0;
    assert [0, 0, 0, 0, 0, 0, 0][1..] == [0, 0, 0, 0, 0, 0];
    assert Imm64([0, 0, 0, 0, 0, 0, 0]) == 0;
    assert [d, 0, 0, 0, 0, 0, 0, 0][1..] == [0, 0, 0, 0, 0, 0, 0];
  }

  lemma Pops(rest: seq<int>, c: Cpu)
    ensures Execute([0x5B, 0x58] + rest, c) ==
      if |c.stack| < 2 then Fault
      else Execute(rest, Cpu(c.stack[|c.stack| - 2], c.stack[|c.stack| - 1], c.stack[..|c.stack| - 2]))
  {
    hide Execute, Decode;
    assert [0x5B, 0x58] + rest == [0x5B] + ([0x58] + rest);
    DecodesPops([0x58] + rest);
    DecodesPops(rest);
    One([0x5B], [0x58] + rest, PopRbx, c);
    if c.stack != [] {
      var c1 := Popped(c).(rbx := c.stack[|c.stack| - 1]);
      One([0x58], rest, PopRax, c1);
      if |c.stack| >= 2 {
        assert c.stack[..|c.stack| - 1][..|c.stack| - 2] == c.stack[..|c.stack| - 2];
      }
    }
  }

  lemma OpThenPush(op: seq<int>, rest: seq<int>, i: Instr, c: Cpu)
    requires Decode(op + ([0x50] + rest)) == Some((i, |op|)) && !i.Ret? && Step(i, c).Some?
    ensures Execute(op + ([0x50] + rest), c) == Execute(rest, Pushed(Step(i, c).value))
  {
    hide Execute, Decode;
    One(op, [0x50] + rest, i, c);
    DecodesPush(rest);
    One([0x50], rest, PushRax, Step(i, c).value);
  }

  lemma Steps(c: Cpu)
    ensures Step(AddRbx, c) == Some(c.(rax := Word(c.rax + c.rbx)))
    ensures Step(SubRbx, c) == Some(c.(rax := Word(c.rax - c.rbx)))
    ensures Step(MulRbx, c) == Some(c.(rax := Word(c.rax * c.rbx)))
  {
    hide Word;
  }

  lemma Adds(rest: seq<int>, c: Cpu)
    ensures Execute([0x48, 0x01, 0xD8, 0x50] + rest, c) == Execute(rest, Pushed(c.(rax := Word(c.rax + c.rbx))))
  {
    hide *;
    Steps(c);
    assert [0x48, 0x01, 0xD8, 0x50] + rest == [0x48, 0x01, 0xD8] + ([0x50] + rest);
    DecodesAdd([0x50] + rest);
    OpThenPush([0x48, 0x01, 0xD8], rest, AddRbx, c);
  }

  lemma Subtracts(rest: seq<int>, c: Cpu)
    ensures Execute([0x48, 0x29, 0xD8, 0x50] + rest, c) == Execute(rest, Pushed(c.(rax := Word(c.rax - c.rbx))))
  {
    hide *;
    Steps(c);
    assert [0x48, 0x29, 0xD8, 0x50] + rest == [0x48, 0x29, 0xD8] + ([0x50] + rest);
    DecodesSub([0x50] + rest);
    OpThenPush([0x48, 0x29, 0xD8], rest, SubRbx, c);
  }

  lemma Multiplies(rest: seq<int>, c: Cpu)
    ensures Execute([0x48, 0x0F, 0xAF, 0xC3, 0x50] + rest, c) == Execute(rest, Pushed(c.(rax := Word(c.rax * c.rbx))))
  {
    hide *;
    Steps(c);
    assert [0x48, 0x0F, 0xAF, 0xC3, 0x50] + rest == [0x48, 0x0F, 0xAF, 0xC3] + ([0x50] + rest);
    DecodesMul([0x50] + rest);
    OpThenPush([0x48, 0x0F, 0xAF, 0xC3], rest, MulRbx, c);
  }

  lemma Ends(rest: seq<int>, c: Cpu)
    ensures Execute(EMIT_CODE + rest, c) == if |c.stack| == 1 then Returned(c.stack[0]) else Fault
  {
    hide Execute, Decode;
    assert EMIT_CODE + rest == [0x58] + ([0xC3] + rest);
    DecodesPops([0xC3] + rest);
    DecodesRet(rest);
    One([0x58], [0xC3] + rest, PopRax, c);
    if c.stack != [] {
      One([0xC3], rest, Ret, Popped(c).(rax := c.stack[|c.stack| - 1]));
    }
  }

  lemma BinaryExecutes(t: int, rest: seq<int>, c: Cpu)
    requires 10 <= t <= 12
    ensures Execute(Lower(t) + rest, c) ==
      if |c.stack| < 2 then Fault
      else
        var v := Word(Combine(t, c.stack[|c.stack| - 2], c.stack[|c.stack| - 1]));
        Execute(rest, Cpu(v, c.stack[|c.stack| - 1], c.stack[..|c.stack| - 2] + [v]))
  {
    hide Execute, Word;
    if t == 10 {
      assert Lower(t) + rest == [0x5B, 0x58] + ([0x48, 0x01, 0xD8, 0x50] + rest);
      Pops([0x48, 0x01, 0xD8, 0x50] + rest, c);
    } else if t == 11 {
      assert Lower(t) + rest == [0x5B, 0x58] + ([0x48, 0x29, 0xD8, 0x50] + rest);
      Pops([0x48, 0x29, 0xD8, 0x50] + rest, c);
    } else {
      assert Lower(t) + rest == [0x5B, 0x58] + ([0x48, 0x0F, 0xAF, 0xC3, 0x50] + rest);
      Pops([0x48, 0x0F, 0xAF, 0xC3, 0x50] + rest, c);
    }
    if |c.stack| >= 2 {
      var d := Cpu(c.stack[|c.stack| - 2], c.stack[|c.stack| - 1], c.stack[..|c.stack| - 2]);
      Adds(rest, d);
      Subtracts(rest, d);
      Multiplies(rest, d);
    }
  }

  lemma {:induction false} LowerFront(t: int, rest: seq<int>)
    ensures LowerAll([t] + rest) == Lower(t) + LowerAll(rest)
    decreases |rest|
  {
    hide Lower;
    var src := [t] + rest;
    if rest == [] {
      assert src == [t] && |src[..0]| == 0;
      assert LowerAll(src[..0]) == [];
    } else {
      var k := |rest| - 1;
      assert src[..|src| - 1] == [t] + rest[..k] && src[|src| - 1] == rest[k];
      LowerFront(t, rest[..k]);
      assert LowerAll(rest) == LowerAll(rest[..k]) + Lower(rest[k]);
    }
  }

  /** Token numbers are not negative. */
  predicate Tokens(src: seq<int>) {
    forall i :: 0 <= i < |src| ==> src[i] >= 0
  }

  lemma TokensTail(src: seq<int>)
    requires Tokens(src) && src != []
    ensures Tokens(src[1..]) && src[0] >= 0
  {
  }

  lemma LowerDigit(t: int)
    requires t < 10
    ensures Lower(t) == LiteralCode(t)
  {
  }

  lemma LowerEnd(t: int)
    requires t > 12
    ensures Lower(t) == EMIT_CODE
  {
  }

  lemma WordsSnoc(stack: seq<int>, v: int)
    ensures Words(stack + [v]) == Words(stack) + [Word(v)]
  {
    hide Word;
  }

  lemma WordsTop(stack: seq<int>)
    requires |stack| >= 2
    ensures var ws := Words(stack);
            && ws[|ws| - 2] == Word(stack[|stack| - 2]) && ws[|ws| - 1] == Word(stack[|stack| - 1])
            && ws[..|ws| - 2] == Words(stack[..|stack| - 2])
  {
    hide Word;
  }

  lemma WordsOne(stack: seq<int>)
    requires |stack| == 1
    ensures Words(stack)[0] == Word(stack[0])
  {
    hide Word;
  }

  lemma PostfixStep(src: seq<int>, stack: seq<int>)
    requires src != []
    ensures var t := src[0];
            Postfix(src, stack) ==
            if t < 10 then Postfix(src[1..], stack + [t])
            else if t <= 12 then
              if |stack| < 2 then Malformed
              else Postfix(src[1..], stack[..|stack| - 2] + [Combine(t, stack[|stack| - 2], stack[|stack| - 1])])
            else if |stack| == 1 then Value(stack[0])
            else Malformed
  {
    hide Combine;
  }

  lemma NothingToRun(c: Cpu, stack: seq<int>)
    ensures Execute(LowerAll([]), c) == Fault && Postfix([], stack) == Malformed
  {
    assert LowerAll([]) == [];
    assert Decode([]) == None;
  }

  /** The processor, run over the lowered source, does to words what postfix
      evaluation does to integers. */
  lemma {:induction false} ExecutesPostfix(src: seq<int>, stack: seq<int>, c: Cpu)
    requires Tokens(src) && c.stack == Words(stack)
    ensures Execute(LowerAll(src), c)
         == match Postfix(src, stack) case Value(v) => Returned(Word(v)) case Malformed => Fault
    decreases |src|
  {
    hide *;
    if src == [] {
      NothingToRun(c, stack);
    } else {
      var t, rest := src[0], src[1..];
      assert src == [t] + rest;
      TokensTail(src);
      LowerFront(t, rest);
      PostfixStep(src, stack);
      if t < 10 {
        LowerDigit(t);
        LiteralExecutes(t, LowerAll(rest), c);
        Small(t);
        WordsSnoc(stack, t);
        PushedStack(c, t);
        ExecutesPostfix(rest, stack + [t], Pushed(c.(rax := t)));
      } else if t <= 12 {
        BinaryExecutes(t, LowerAll(rest), c);
        if |stack| >= 2 {
          var a, b := stack[|stack| - 2], stack[|stack| - 1];
          WordsTop(stack);
          WordCombine(t, a, b);
          WordsSnoc(stack[..|stack| - 2], Combine(t, a, b));
          var v := Word(Combine(t, Word(a), Word(b)));
          ExecutesPostfix(rest, stack[..|stack| - 2] + [Combine(t, a, b)],
            Cpu(v, c.stack[|c.stack| - 1], c.stack[..|c.stack| - 2] + [v]));
        }
      } else {
        LowerEnd(t);
        Ends(LowerAll(rest), c);
        if |stack| == 1 {
          WordsOne(stack);
        }
      }
    }
  }

  lemma PushedStack(c: Cpu, v: nat)
    ensures Pushed(c.(rax := v)).stack == c.stack + [v]
  {
  }

  lemma Small(t: int)
    requires 0 <= t <= 9
    ensures Word(t) == t
  {
  }

  /** Calling the compiled code returns exactly when the source, evaluated as
      postfix, reaches its end with one value on the stack; what it returns is that
      value modulo 2^64, and so the value itself whenever it fits a signed word. */
  lemma CompiledReturns(src: seq<int>, rax: nat, rbx: nat)
    requires Tokens(src)
    ensures var r := Execute(LowerAll(src), Cpu(rax, rbx, []));
            var a := Postfix(src, []);
            && (r.Returned? <==> a.Value?)
            && (a.Value? ==> r.rax == Word(a.v))
            && (a.Value? ==> (AsSigned(r.rax) == a.v <==> -(TWO64 / 2) <= a.v < TWO64 / 2))
  {
    hide Execute, LowerAll;
    ExecutesPostfix(src, [], Cpu(rax, rbx, []));
  }
}
