/** What assembling keeps and what linking achieves: emission only appends, a
    label once placed never moves, and every patched relative jump lands on its
    label. */
module Linking {
  import opened Lexicon
  import opened Native
  import opened Backend

  // ----- invariants of an assembly in progress -----

  /** Every fixup covers four operand bytes of the code, later ones further on. */
  ghost predicate FieldsOk(o: Obj) {
    && (forall k :: 0 <= k < |o.fixups| ==>
          o.fixups[k].0 + 4 <= |o.b| && forall q :: o.fixups[k].0 <= q < o.fixups[k].0 + 4 ==> o.b[q].Imm?)
    && (forall j, k :: 0 <= j < k < |o.fixups| ==> o.fixups[j].0 + 4 <= o.fixups[k].0)
  }

  ghost predicate LabelsOk(o: Obj) {
    forall l :: l in o.labels ==> o.labels[l] <= |o.b| && (l.Local? ==> l.n <= o.n)
  }

  ghost predicate Good(o: Obj) {
    FieldsOk(o) && LabelsOk(o)
  }

  /** o' continues o: code and fixups are appended to, labels stay put, and the
      labels that are new are local ones numbered above base. */
  ghost predicate Grows(base: nat, o: Obj, o': Obj) {
    && o.b <= o'.b && o.fixups <= o'.fixups && o.n <= o'.n
    && (forall l :: l in o.labels ==> l in o'.labels && o'.labels[l] == o.labels[l])
    && (forall l :: l in o'.labels && l !in o.labels ==> l.Local? && base < l.n)
  }

  lemma GrowsTrans(base: nat, b2: nat, o: Obj, o1: Obj, o2: Obj)
    requires Grows(base, o, o1) && Grows(b2, o1, o2) && base <= b2
    ensures Grows(base, o, o2)
  {
  }

  lemma GrowsSelf(base: nat, o: Obj)
    ensures Grows(base, o, o)
  {
  }

  lemma EmitGood(base: nat, o: Obj, i: Instr)
    requires Good(o)
    ensures Good(Emit(o, i)) && Grows(base, o, Emit(o, i))
  {
    var o' := Emit(o, i);
    forall k | 0 <= k < |o'.fixups|
      ensures forall q :: o'.fixups[k].0 <= q < o'.fixups[k].0 + 4 ==> o'.b[q].Imm?
    {
      assert forall q :: o.fixups[k].0 <= q < o.fixups[k].0 + 4 ==> o.b[q].Imm? && o'.b[q] == o.b[q];
    }
  }

  lemma JumpGood(base: nat, o: Obj, i: Instr, l: Label)
    requires Good(o)
    ensures Good(Jump(o, i, l)) && Grows(base, o, Jump(o, i, l))
  {
    var o' := Jump(o, i, l);
    var m := |o.fixups|;
    forall k | 0 <= k < |o'.fixups|
      ensures o'.fixups[k].0 + 4 <= |o'.b|
      ensures forall q :: o'.fixups[k].0 <= q < o'.fixups[k].0 + 4 ==> o'.b[q].Imm?
      ensures k < m ==> o'.fixups[k].0 + 4 <= |o.b|
    {
      if k < m {
        assert o'.fixups[k] == o.fixups[k];
        assert forall q :: o.fixups[k].0 <= q < o.fixups[k].0 + 4 ==> o.b[q].Imm? && o'.b[q] == o.b[q];
      } else {
        assert o'.fixups[k].0 == |o.b| + Size(i);
        assert forall q :: 0 <= q < 4 ==> o'.b[|o.b| + Size(i) + q] == Bytes(Le32(0))[q];
        forall q | o'.fixups[k].0 <= q < o'.fixups[k].0 + 4 ensures o'.b[q].Imm? {
          assert o'.b[|o.b| + Size(i) + (q - |o.b| - Size(i))] == Bytes(Le32(0))[q - |o.b| - Size(i)];
        }
      }
    }
    forall j, k | 0 <= j < k < |o'.fixups| ensures o'.fixups[j].0 + 4 <= o'.fixups[k].0 {
      assert o'.fixups[j] == o.fixups[j];
    }
  }

  lemma JumpKeeps(o: Obj, i: Instr, l: Label)
    ensures Jump(o, i, l).labels == o.labels && Jump(o, i, l).n == o.n
  {
  }

  lemma MarkGood(base: nat, o: Obj, n: nat)
    requires Good(o) && base < n <= o.n && Local(n) !in o.labels
    ensures Good(Mark(o, Local(n))) && Grows(base, o, Mark(o, Local(n)))
  {
  }

  lemma BumpGood(o: Obj, k: nat)
    requires Good(o)
    ensures Good(o.(n := o.n + k)) && Grows(o.n, o, o.(n := o.n + k))
  {
  }

  lemma VPushGood(base: nat, o: Obj)
    requires Good(o)
    ensures Good(VPush(o)) && Grows(base, o, VPush(o))
  {
    EmitGood(base, o, SubR13);
    EmitGood(base, Emit(o, SubR13), StoreTop);
  }

  lemma VPopRaxGood(base: nat, o: Obj)
    requires Good(o)
    ensures Good(VPopRax(o)) && Grows(base, o, VPopRax(o))
  {
    EmitGood(base, o, LoadTop);
    EmitGood(base, Emit(o, LoadTop), AddR13);
  }

  lemma BinaryGood(base: nat, o: Obj, op: Instr)
    requires Good(o)
    ensures Good(Binary(o, op)) && Grows(base, o, Binary(o, op))
  {
    EmitGood(base, o, LoadTopRbx);
    EmitGood(base, Emit(o, LoadTopRbx), AddR13);
    var o1 := VPopRbx(o);
    VPopRaxGood(base, o1);
    EmitGood(base, VPopRax(o1), op);
    VPushGood(base, Emit(VPopRax(o1), op));
  }

  lemma EmitOutGood(base: nat, o: Obj)
    requires Good(o)
    ensures Good(EmitOut(o)) && Grows(base, o, EmitOut(o))
  {
    VPopRaxGood(base, o);
    var o1 := VPopRax(o);
    EmitGood(base, o1, LoadRcx(OFF_OUTCNT));
    var o2 := Emit(o1, LoadRcx(OFF_OUTCNT));
    EmitGood(base, o2, StoreIndexed(OFF_OUT));
    var o3 := Emit(o2, StoreIndexed(OFF_OUT));
    EmitGood(base, o3, IncRcx);
    EmitGood(base, Emit(o3, IncRcx), StoreRcx(OFF_OUTCNT));
  }

  lemma CompareGood(base: nat, o: Obj, arg: int)
    requires Good(o)
    ensures Good(GrantCompare(o, arg)) && Grows(base, o, GrantCompare(o, arg))
  {
    hide Good, Grows;
    EmitGood(base, o, LoadRax(OFF_GRANT + arg * 8));
    var o1 := Emit(o, LoadRax(OFF_GRANT + arg * 8));
    EmitGood(base, o1, LoadRcx(OFF_HOLDER));
    var o2 := Emit(o1, LoadRcx(OFF_HOLDER));
    EmitGood(base, o2, IncRcx);
    var o3 := Emit(o2, IncRcx);
    EmitGood(base, o3, CmpRaxRcx);
    GrowsTrans(base, base, o, o1, o2);
    GrowsTrans(base, base, o, o2, o3);
    GrowsTrans(base, base, o, o3, Emit(o3, CmpRaxRcx));
  }

  lemma StoreGuardGood(o: Obj, arg: int)
    requires Good(o)
    ensures Good(StoreGuard(o, arg)) && Grows(o.n, o, StoreGuard(o, arg))
    ensures StoreGuard(o, arg).labels == o.labels && StoreGuard(o, arg).n == o.n + 2
  {
    hide Good, Grows;
    var o0 := o.(n := o.n + 2);
    BumpGood(o, 2);
    CompareGood(o.n, o0, arg);
    var o1 := GrantCompare(o0, arg);
    JumpGood(o.n, o1, Jcc(NotEqual), Local(o.n + 1));
    GrowsTrans(o.n, o.n, o, o0, o1);
    GrowsTrans(o.n, o.n, o, o1, StoreGuard(o, arg));
  }

  lemma StoreBodyGood(base: nat, o: Obj, arg: int, done: Label)
    requires Good(o)
    ensures Good(StoreBody(o, arg, done)) && Grows(base, o, StoreBody(o, arg, done))
    ensures StoreBody(o, arg, done).labels == o.labels && StoreBody(o, arg, done).n == o.n
  {
    hide Good, Grows;
    VPopRaxGood(base, o);
    var o1 := VPopRax(o);
    EmitGood(base, o1, StoreRax(OFF_SLOTS + arg * 8));
    var o2 := Emit(o1, StoreRax(OFF_SLOTS + arg * 8));
    JumpGood(base, o2, Jmp, done);
    GrowsTrans(base, base, o, o1, o2);
    GrowsTrans(base, base, o, o2, StoreBody(o, arg, done));
  }

  lemma StoreTrapGood(base: nat, o: Obj)
    requires Good(o)
    ensures Good(StoreTrap(o)) && Grows(base, o, StoreTrap(o))
    ensures StoreTrap(o).labels == o.labels && StoreTrap(o).n == o.n
  {
    hide Good, Grows;
    EmitGood(base, o, MovRspR14);
    var o1 := Emit(o, MovRspR14);
    EmitGood(base, o1, LeaR13(OFF_VTOP));
    var o2 := Emit(o1, LeaR13(OFF_VTOP));
    EmitGood(base, o2, MovRaxImm(REFUSED));
    var o3 := Emit(o2, MovRaxImm(REFUSED));
    JumpGood(base, o3, Jmp, Epilogue);
    GrowsTrans(base, base, o, o1, o2);
    GrowsTrans(base, base, o, o2, o3);
    GrowsTrans(base, base, o, o3, StoreTrap(o));
  }

  lemma FreshLabel(o: Obj, k: nat)
    requires Good(o) && k > o.n
    ensures Local(k) !in o.labels
  {
  }

  lemma EmitStoreGood(o: Obj, arg: int)
    requires Good(o)
    ensures Good(EmitStore(o, arg)) && Grows(o.n, o, EmitStore(o, arg))
  {
    hide Good, Grows, StoreGuard, StoreBody, StoreTrap;
    var n := o.n;
    FreshLabel(o, n + 1);
    FreshLabel(o, n + 2);
    StoreGuardGood(o, arg);
    var o1 := StoreGuard(o, arg);
    StoreBodyGood(n, o1, arg, Local(n + 2));
    var o2 := StoreBody(o1, arg, Local(n + 2));
    MarkGood(n, o2, n + 1);
    var o3 := Mark(o2, Local(n + 1));
    StoreTrapGood(n, o3);
    var o4 := StoreTrap(o3);
    MarkGood(n, o4, n + 2);
    GrowsTrans(n, n, o, o1, o2);
    GrowsTrans(n, n, o, o2, o3);
    GrowsTrans(n, n, o, o3, o4);
    GrowsTrans(n, n, o, o4, EmitStore(o, arg));
  }

  lemma IfHeadGood(o: Obj)
    requires Good(o)
    ensures Good(IfHead(o)) && Grows(o.n, o, IfHead(o))
    ensures IfHead(o).labels == o.labels && IfHead(o).n == o.n + 4
  {
    hide Good, Grows;
    var l := o.n;
    BumpGood(o, 4);
    var o0 := o.(n := o.n + 4);
    VPopRaxGood(l, o0);
    var o1 := VPopRax(o0);
    EmitGood(l, o1, CmpRaxZero);
    var o2 := Emit(o1, CmpRaxZero);
    JumpGood(l, o2, Jcc(Greater), Local(l + 2));
    var o3 := Jump(o2, Jcc(Greater), Local(l + 2));
    JumpGood(l, o3, Jcc(Equal), Local(l + 3));
    var o4 := Jump(o3, Jcc(Equal), Local(l + 3));
    JumpGood(l, o4, Jmp, Local(l + 4));
    GrowsTrans(l, l, o, o0, o1);
    GrowsTrans(l, l, o, o1, o2);
    GrowsTrans(l, l, o, o2, o3);
    GrowsTrans(l, l, o, o3, o4);
    GrowsTrans(l, l, o, o4, IfHead(o));
  }

  // ----- the compiler only appends -----

  lemma {:induction false} BodyGood(toks: seq<Token>, i: nat, hi: nat, o: Obj, loops: seq<(Label, Label)>)
    requires hi <= |toks| && Good(o)
    requires Body(toks, i, hi, o, loops).Some?
    ensures var o' := Body(toks, i, hi, o, loops).value.0; Good(o') && Grows(o.n, o, o')
    decreases |toks| - i, 1
  {
    if i < hi && toks[i] != RECORD {
      BodyOneGood(toks, i, hi, o, loops);
      var r := BodyOne(toks, i, hi, o, loops).value;
      BodyGood(toks, r.1, hi, r.0, loops);
      GrowsTrans(o.n, r.0.n, o, r.0, Body(toks, r.1, hi, r.0, loops).value.0);
    }
  }

  lemma {:induction false} BodyOneGood(toks: seq<Token>, i: nat, hi: nat, o: Obj, loops: seq<(Label, Label)>)
    requires i < hi <= |toks| && Good(o)
    requires BodyOne(toks, i, hi, o, loops).Some?
    ensures var o' := BodyOne(toks, i, hi, o, loops).value.0; Good(o') && Grows(o.n, o, o')
    decreases |toks| - i, 0
  {
    var t := toks[i];
    if t == START && IsVerb(toks, i) {
      var cmd := toks[i + 4];
      var (arg, p) := if HasArg(cmd) then ReadInt(toks, i + 9, |toks|) else (0, i + 9);
      VerbGood(cmd, arg, toks, p, hi, o, loops);
    } else if IsDigit(t) || IsNeg(t) {
      var (v, p) := ReadInt(toks, i, |toks|);
      EmitGood(o.n, o, MovRaxImm(v));
      VPushGood(o.n, Emit(o, MovRaxImm(v)));
    } else if PLUS <= t <= MUL {
      BinaryGood(o.n, o, ArithOp(t));
    } else if t == EMIT {
      EmitOutGood(o.n, o);
    } else if t == LPAREN {
      BodyGood(toks, i + 1, Match(toks, i, |toks|).value, o, loops);
    }
  }

  lemma {:induction false} VerbGood(cmd: Token, arg: int, toks: seq<Token>, i: nat, hi: nat, o: Obj,
      loops: seq<(Label, Label)>)
    requires hi <= |toks| && Good(o)
    requires VerbCode(cmd, arg, toks, i, hi, o, loops).Some?
    ensures var o' := VerbCode(cmd, arg, toks, i, hi, o, loops).value.0; Good(o') && Grows(o.n, o, o')
    decreases |toks| - i, 3
  {
    hide Good, Grows;
    GrowsSelf(o.n, o);
    if cmd == RET {
      EmitGood(o.n, o, Ret);
    } else if cmd == CALL {
      JumpGood(o.n, o, CallRel, Prog(arg));
    } else if cmd == READ {
      EmitGood(o.n, o, LoadRax(OFF_SLOTS + arg * 8));
      var o1 := Emit(o, LoadRax(OFF_SLOTS + arg * 8));
      VPushGood(o.n, o1);
      GrowsTrans(o.n, o.n, o, o1, VPush(o1));
    } else if cmd == STORE {
      EmitStoreGood(o, arg);
    } else if cmd == IF {
      IfGood(toks, i, hi, o, loops);
    } else if cmd == LOOP {
      LoopGood(toks, i, hi, o, loops);
    } else if cmd == BREAK && loops != [] {
      JumpGood(o.n, o, Jmp, loops[|loops| - 1].1);
    }
  }

  lemma {:induction false} IfGood(toks: seq<Token>, i: nat, hi: nat, o: Obj, loops: seq<(Label, Label)>)
    requires hi <= |toks| && Good(o)
    requires VerbCode(IF, 0, toks, i, hi, o, loops).Some?
    ensures var o' := VerbCode(IF, 0, toks, i, hi, o, loops).value.0; Good(o') && Grows(o.n, o, o')
    decreases |toks| - i, 2, 4
  {
    hide Good, Grows, Arms, ArmsCode, IfHead;
    IfHeadGood(o);
    var regions := Arms(toks, i, hi, |toks|, 3).value.0;
    forall k: nat | k > o.n ensures Local(k) !in o.labels {
      FreshLabel(o, k);
    }
    var o1 := IfHead(o);
    ArmsGood(toks, i, regions, 0, o.n, o1, loops);
    var o2 := ArmsCode(toks, i, regions, 0, o.n, o1, loops).value;
    MarkGood(o.n, o2, o.n + 1);
    GrowsTrans(o.n, o.n, o, o1, o2);
    GrowsTrans(o.n, o.n, o, o2, Mark(o2, Local(o.n + 1)));
  }

  lemma {:induction false} LoopGood(toks: seq<Token>, i: nat, hi: nat, o: Obj, loops: seq<(Label, Label)>)
    requires hi <= |toks| && Good(o)
    requires VerbCode(LOOP, 0, toks, i, hi, o, loops).Some?
    ensures var o' := VerbCode(LOOP, 0, toks, i, hi, o, loops).value.0; Good(o') && Grows(o.n, o, o')
    decreases |toks| - i, 2, 4
  {
    hide Good, Grows, Body, Match, VerbCode, Jump;
    LoopIs(toks, i, hi, o, loops);
    var n := o.n;
    var m := Match(toks, i, |toks|).value;
    var top, brk := Local(n + 1), Local(n + 2);
    FreshLabel(o, n + 1);
    FreshLabel(o, n + 2);
    var o0 := o.(n := n + 2);
    BumpGood(o, 2);
    MarkGood(n, o0, n + 1);
    var o1 := Mark(o0, top);
    BodyGood(toks, i + 1, m, o1, loops + [(top, brk)]);
    var o2 := Body(toks, i + 1, m, o1, loops + [(top, brk)]).value.0;
    GrowsKeeps(o1, o2, n + 2);
    JumpGood(n, o2, Jmp, top);
    JumpKeeps(o2, Jmp, top);
    var o3 := Jump(o2, Jmp, top);
    MarkGood(n, o3, n + 2);
    GrowsTrans(n, n, o, o0, o1);
    GrowsTrans(n, n + 2, o, o1, o2);
    GrowsTrans(n, n, o, o2, o3);
    GrowsTrans(n, n, o, o3, Mark(o3, brk));
  }

  lemma LoopIs(toks: seq<Token>, i: nat, hi: nat, o: Obj, loops: seq<(Label, Label)>)
    requires hi <= |toks| && VerbCode(LOOP, 0, toks, i, hi, o, loops).Some?
    ensures Match(toks, i, |toks|).Some?
    ensures var m := Match(toks, i, |toks|).value;
            var top, brk := Local(o.n + 1), Local(o.n + 2);
            var r := Body(toks, i + 1, m, Mark(o.(n := o.n + 2), top), loops + [(top, brk)]);
            r.Some? && VerbCode(LOOP, 0, toks, i, hi, o, loops).value.0 == Mark(Jump(r.value.0, Jmp, top), brk)
  {
    hide Match, Body, Jump;
  }

  /** A label number already handed out is not placed by what comes after. */
  lemma GrowsKeeps(o: Obj, o': Obj, k: nat)
    requires Grows(o.n, o, o') && k <= o.n && Local(k) !in o.labels
    ensures o.n <= o'.n && Local(k) !in o'.labels
  {
  }

  /** ArmsCode marks the labels of the arms still to come and leaves l + 1, the
      end of the IF, for its caller. */
  lemma {:induction false} ArmsGood(toks: seq<Token>, i: nat, regions: seq<(nat, nat)>, idx: nat, l: nat, o: Obj,
      loops: seq<(Label, Label)>)
    requires idx <= 3 && forall a :: a in regions ==> i < a.0 <= a.1 < |toks|
    requires Good(o) && l + 4 <= o.n
    requires Local(l + 1) !in o.labels && forall k: nat :: l + 2 + idx <= k <= l + 4 ==> Local(k) !in o.labels
    requires ArmsCode(toks, i, regions, idx, l, o, loops).Some?
    ensures var o' := ArmsCode(toks, i, regions, idx, l, o, loops).value;
            Good(o') && Grows(l, o, o') && o.n <= o'.n && Local(l + 1) !in o'.labels
    decreases |toks| - i, 2, 3 - idx, 1
  {
    hide Good, Grows, Body, ArmCode;
    GrowsSelf(l, o);
    if idx < 3 {
      var o3 := ArmGood(toks, i, regions, idx, l, o, loops);
      ArmsGood(toks, i, regions, idx + 1, l, o3, loops);
      GrowsTrans(l, l, o, o3, ArmsCode(toks, i, regions, idx + 1, l, o3, loops).value);
    }
  }

  lemma {:induction false} ArmGood(toks: seq<Token>, i: nat, regions: seq<(nat, nat)>, idx: nat, l: nat, o: Obj,
      loops: seq<(Label, Label)>)
    returns (o3: Obj)
    requires idx < 3 && forall a :: a in regions ==> i < a.0 <= a.1 < |toks|
    requires Good(o) && l + 4 <= o.n
    requires Local(l + 1) !in o.labels && forall k: nat :: l + 2 + idx <= k <= l + 4 ==> Local(k) !in o.labels
    requires ArmsCode(toks, i, regions, idx, l, o, loops).Some?
    ensures Good(o3) && Grows(l, o, o3) && o.n <= o3.n
    ensures Local(l + 1) !in o3.labels && forall k: nat :: l + 3 + idx <= k <= l + 4 ==> Local(k) !in o3.labels
    ensures ArmsCode(toks, i, regions, idx, l, o, loops) == ArmsCode(toks, i, regions, idx + 1, l, o3, loops)
    decreases |toks| - i, 2, 3 - idx, 0
  {
    hide Good, Grows, Body;
    MarkGood(l, o, l + 2 + idx);
    var o1 := Mark(o, Local(l + 2 + idx));
    GrowsSelf(o1.n, o1);
    var o2 := o1;
    if idx < |regions| {
      assert regions[idx] in regions;
      o2 := ArmCode(toks, regions[idx], o1, loops).value;
      BodyGood(toks, regions[idx].0, regions[idx].1, o1, loops);
    }
    NoSmallLabels(l, o1, o2);
    JumpGood(l, o2, Jmp, Local(l + 1));
    o3 := Jump(o2, Jmp, Local(l + 1));
    GrowsTrans(l, o1.n, o, o1, o2);
    GrowsTrans(l, l, o, o2, o3);
  }

  lemma NoSmallLabels(l: nat, o: Obj, o': Obj)
    requires Grows(o.n, o, o') && l + 4 <= o.n
    ensures o.n <= o'.n
    ensures forall k: nat :: k <= l + 4 && Local(k) !in o.labels ==> Local(k) !in o'.labels
  {
  }

  // ----- linking -----

  /** img is o with its jumps resolved: same length, instruction heads in place,
      and the operand of every fixup leads exactly to its label. */
  ghost predicate Linked(o: Obj, img: seq<Byte>) {
    && |img| == |o.b|
    && (forall q :: 0 <= q < |o.b| && o.b[q].Head? ==> img[q] == o.b[q])
    && (forall k :: 0 <= k < |o.fixups| ==> LandsOn(img, o.fixups[k].0, o.fixups[k].1, o.labels))
  }

  ghost predicate LandsOn(img: seq<Byte>, pos: nat, l: Label, labels: map<Label, nat>) {
    && l in labels && pos + 4 <= |img|
    && (forall q :: pos <= q < pos + 4 ==> img[q].Imm?)
    && pos + 4 + Operand(img, pos) == labels[l]
  }

  ghost predicate Fields(b: seq<Byte>, fixups: seq<(nat, Label)>) {
    && (forall k :: 0 <= k < |fixups| ==>
          fixups[k].0 + 4 <= |b| && forall q :: fixups[k].0 <= q < fixups[k].0 + 4 ==> b[q].Imm?)
    && (forall j, k :: 0 <= j < k < |fixups| ==> fixups[j].0 + 4 <= fixups[k].0)
  }

  lemma PatchAt(b: seq<Byte>, pos: nat, v: int)
    requires pos + 4 <= |b| && -0x8000_0000 <= v < 0x8000_0000
    ensures var r := Patch(b, pos, v);
            && (forall q :: 0 <= q < |b| && !(pos <= q < pos + 4) ==> r[q] == b[q])
            && (forall q :: pos <= q < pos + 4 ==> r[q].Imm?)
            && Operand(r, pos) == v
  {
    var r := Patch(b, pos, v);
    Le32RoundTrip(v);
    assert forall q :: 0 <= q < 4 ==> r[pos + q] == Bytes(Le32(v))[q] == Imm(Le32(v)[q]);
    assert r[pos] == Imm(Le32(v)[0]) && r[pos + 1] == Imm(Le32(v)[1]);
    assert r[pos + 2] == Imm(Le32(v)[2]) && r[pos + 3] == Imm(Le32(v)[3]);
  }

  lemma {:induction false} ResolveLinks(b: seq<Byte>, fixups: seq<(nat, Label)>, labels: map<Label, nat>)
    requires Fields(b, fixups) && |b| < 0x8000_0000
    requires forall l :: l in labels ==> labels[l] <= |b|
    requires Resolve(b, fixups, labels).Some?
    ensures var img := Resolve(b, fixups, labels).value;
            && |img| == |b|
            && (forall q :: 0 <= q < |b| && (fixups == [] || q < fixups[0].0) ==> img[q] == b[q])
            && (forall q :: 0 <= q < |b| && !b[q].Imm? ==> img[q] == b[q])
            && (forall k :: 0 <= k < |fixups| ==> LandsOn(img, fixups[k].0, fixups[k].1, labels))
    decreases |fixups|
  {
    if fixups != [] {
      var (pos, l) := fixups[0];
      var v: int := labels[l] as int - (pos + 4);
      PatchAt(b, pos, v);
      var b1 := Patch(b, pos, v);
      var rest := fixups[1..];
      assert forall k :: 0 <= k < |rest| ==> rest[k] == fixups[k + 1];
      forall k | 0 <= k < |rest|
        ensures rest[k].0 + 4 <= |b1| && forall q :: rest[k].0 <= q < rest[k].0 + 4 ==> b1[q].Imm?
      {
        assert pos + 4 <= fixups[k + 1].0;
        assert forall q :: rest[k].0 <= q < rest[k].0 + 4 ==> b[q].Imm? && b1[q] == b[q];
      }
      ResolveLinks(b1, rest, labels);
      var img := Resolve(b, fixups, labels).value;
      assert img == Resolve(b1, rest, labels).value;
      assert forall q :: pos <= q < pos + 4 ==> img[q] == b1[q];
      assert LandsOn(img, pos, l, labels);
      forall k | 0 <= k < |fixups| ensures LandsOn(img, fixups[k].0, fixups[k].1, labels) {
        if k > 0 {
          assert rest[k - 1] == fixups[k];
        }
      }
    }
  }

  /** Every jump of a compiled and linked set of programs lands on its label. */
  lemma ObjectLinks(progs: Source, entry: int)
    requires CompileAll(progs, entry).Some?
    requires |CompileAll(progs, entry).value| < 0x8000_0000
    requires Good(ObjectCode(progs, entry).value)
    ensures Linked(ObjectCode(progs, entry).value, CompileAll(progs, entry).value)
  {
    var o := ObjectCode(progs, entry).value;
    ResolveLength(o.b, o.fixups, o.labels);
    ResolveLinks(o.b, o.fixups, o.labels);
  }

  lemma {:induction false} ResolveLength(b: seq<Byte>, fixups: seq<(nat, Label)>, labels: map<Label, nat>)
    requires Resolve(b, fixups, labels).Some?
    ensures |Resolve(b, fixups, labels).value| == |b|
    decreases |fixups|
  {
    if fixups != [] {
      var (pos, l) := fixups[0];
      var v: int := labels[l] as int - (pos + 4);
      ResolveLength(Patch(b, pos, v), fixups[1..], labels);
    }
  }
}
