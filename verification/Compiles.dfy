/** Every set of programs in the domain whose calls and entry are loaded compiles and
    links, into at most forty bytes of code for each token. */
module Compiles {
  import opened Lexicon
  import opened Interp
  import opened Native
  import opened Backend
  import opened Linking
  import opened Domain
  import opened Arena
  import opened BackendCorrect
  import opened NativeRuns

  const RATE := 40

  /** From o to o' code, fixups and labels are only added, at most room bytes, and
      each new fixup is for a label that is placed or among those still to come. */
  ghost predicate Adds(o: Obj, o': Obj, aims: set<Label>, room: int) {
    && o.fixups <= o'.fixups
    && o.labels.Keys <= o'.labels.Keys
    && |o'.b| <= |o.b| + room
    && forall k :: |o.fixups| <= k < |o'.fixups| ==> o'.fixups[k].1 in o'.labels || o'.fixups[k].1 in aims
  }

  lemma AddsSelf(o: Obj, aims: set<Label>)
    ensures Adds(o, o, aims, 0)
  {
  }

  lemma AddsTrans(o: Obj, o1: Obj, o2: Obj, aims: set<Label>, r1: int, r2: int)
    requires Adds(o, o1, aims, r1) && Adds(o1, o2, aims, r2)
    ensures Adds(o, o2, aims, r1 + r2)
  {
  }

  lemma AddsRoom(o: Obj, o': Obj, aims: set<Label>, room: int, more: int)
    requires Adds(o, o', aims, room) && room <= more
    ensures Adds(o, o', aims, more)
  {
  }

  /** A label that has been placed need not be waited for. */
  lemma AddsPlaced(o: Obj, o': Obj, aims: set<Label>, l: Label, room: int)
    requires Adds(o, o', aims + {l}, room) && l in o'.labels
    ensures Adds(o, o', aims, room)
  {
  }

  lemma AddsBump(o: Obj, k: nat, aims: set<Label>)
    ensures Adds(o, o.(n := o.n + k), aims, 0)
  {
  }

  lemma AddsEmit(o: Obj, i: Instr, aims: set<Label>)
    ensures Adds(o, Emit(o, i), aims, Size(i))
  {
  }

  lemma AddsMark(o: Obj, l: Label, aims: set<Label>)
    ensures Adds(o, Mark(o, l), aims, 0)
  {
  }

  lemma AddsJump(o: Obj, i: Instr, l: Label, aims: set<Label>)
    requires l in o.labels || l in aims
    ensures Adds(o, Jump(o, i, l), aims, Size(i) + 4)
  {
  }

  // ----- the straight-line pieces -----

  lemma AddsVPush(o: Obj, aims: set<Label>)
    ensures Adds(o, VPush(o), aims, 8)
  {
    hide Adds, Emit;
    AddsEmit(o, SubR13, aims);
    AddsEmit(Emit(o, SubR13), StoreTop, aims);
    AddsTrans(o, Emit(o, SubR13), VPush(o), aims, 4, 4);
  }

  lemma AddsVPopRax(o: Obj, aims: set<Label>)
    ensures Adds(o, VPopRax(o), aims, 8)
  {
    hide Adds, Emit;
    AddsEmit(o, LoadTop, aims);
    AddsEmit(Emit(o, LoadTop), AddR13, aims);
    AddsTrans(o, Emit(o, LoadTop), VPopRax(o), aims, 4, 4);
  }

  lemma AddsBinary(o: Obj, t: Token, aims: set<Label>)
    requires PLUS <= t <= MUL
    ensures Adds(o, Binary(o, ArithOp(t)), aims, 28)
  {
    hide Adds, Emit, VPopRax, VPush;
    var op := ArithOp(t);
    AddsEmit(o, LoadTopRbx, aims);
    AddsEmit(Emit(o, LoadTopRbx), AddR13, aims);
    var o1 := VPopRbx(o);
    AddsTrans(o, Emit(o, LoadTopRbx), o1, aims, 4, 4);
    AddsVPopRax(o1, aims);
    var o2 := VPopRax(o1);
    AddsEmit(o2, op, aims);
    AddsRoom(o2, Emit(o2, op), aims, Size(op), 4);
    AddsVPush(Emit(o2, op), aims);
    AddsTrans(o, o1, o2, aims, 8, 8);
    AddsTrans(o, o2, Emit(o2, op), aims, 16, 4);
    AddsTrans(o, Emit(o2, op), Binary(o, op), aims, 20, 8);
  }

  lemma AddsOut(o: Obj, aims: set<Label>)
    ensures Adds(o, EmitOut(o), aims, 33)
  {
    hide Adds, Emit, VPopRax;
    var o1 := VPopRax(o);
    var o2 := Emit(o1, LoadRcx(OFF_OUTCNT));
    var o3 := Emit(o2, StoreIndexed(OFF_OUT));
    var o4 := Emit(o3, IncRcx);
    AddsVPopRax(o, aims);
    AddsEmit(o1, LoadRcx(OFF_OUTCNT), aims);
    AddsEmit(o2, StoreIndexed(OFF_OUT), aims);
    AddsEmit(o3, IncRcx, aims);
    AddsEmit(o4, StoreRcx(OFF_OUTCNT), aims);
    AddsTrans(o, o1, o2, aims, 8, 7);
    AddsTrans(o, o2, o3, aims, 15, 8);
    AddsTrans(o, o3, o4, aims, 23, 3);
    AddsTrans(o, o4, EmitOut(o), aims, 26, 7);
  }

  lemma AddsGuard(o: Obj, arg: int, aims: set<Label>)
    requires Local(o.n + 1) in aims
    ensures Adds(o, StoreGuard(o, arg), aims, 26)
  {
    hide Adds, Emit, Jump;
    var o0 := o.(n := o.n + 2);
    var o1 := Emit(o0, LoadRax(OFF_GRANT + arg * 8));
    var o2 := Emit(o1, LoadRcx(OFF_HOLDER));
    var o3 := Emit(o2, IncRcx);
    var o4 := Emit(o3, CmpRaxRcx);
    AddsBump(o, 2, aims);
    AddsEmit(o0, LoadRax(OFF_GRANT + arg * 8), aims);
    AddsEmit(o1, LoadRcx(OFF_HOLDER), aims);
    AddsEmit(o2, IncRcx, aims);
    AddsEmit(o3, CmpRaxRcx, aims);
    AddsJump(o4, Jcc(NotEqual), Local(o.n + 1), aims);
    AddsTrans(o, o0, o1, aims, 0, 7);
    AddsTrans(o, o1, o2, aims, 7, 7);
    AddsTrans(o, o2, o3, aims, 14, 3);
    AddsTrans(o, o3, o4, aims, 17, 3);
    AddsTrans(o, o4, StoreGuard(o, arg), aims, 20, 6);
  }

  lemma AddsStoreBody(o: Obj, arg: int, done: Label, aims: set<Label>)
    requires done in aims
    ensures Adds(o, StoreBody(o, arg, done), aims, 20)
  {
    hide Adds, Emit, Jump, VPopRax;
    var o1 := VPopRax(o);
    var o2 := Emit(o1, StoreRax(OFF_SLOTS + arg * 8));
    AddsVPopRax(o, aims);
    AddsEmit(o1, StoreRax(OFF_SLOTS + arg * 8), aims);
    AddsJump(o2, Jmp, done, aims);
    AddsTrans(o, o1, o2, aims, 8, 7);
    AddsTrans(o, o2, StoreBody(o, arg, done), aims, 15, 5);
  }

  lemma AddsTrap(o: Obj, aims: set<Label>)
    requires Epilogue in aims
    ensures Adds(o, StoreTrap(o), aims, 25)
  {
    hide Adds, Emit, Jump;
    var o1 := Emit(o, MovRspR14);
    var o2 := Emit(o1, LeaR13(OFF_VTOP));
    var o3 := Emit(o2, MovRaxImm(REFUSED));
    AddsEmit(o, MovRspR14, aims);
    AddsEmit(o1, LeaR13(OFF_VTOP), aims);
    AddsEmit(o2, MovRaxImm(REFUSED), aims);
    AddsJump(o3, Jmp, Epilogue, aims);
    AddsTrans(o, o1, o2, aims, 3, 7);
    AddsTrans(o, o2, o3, aims, 10, 10);
    AddsTrans(o, o3, StoreTrap(o), aims, 20, 5);
  }

  lemma AddsStore(o: Obj, arg: int, aims: set<Label>)
    requires Epilogue in aims
    ensures Adds(o, EmitStore(o, arg), aims, 71)
  {
    hide Adds, StoreGuard, StoreBody, StoreTrap, Mark;
    var trap, done := Local(o.n + 1), Local(o.n + 2);
    var all := aims + {done} + {trap};
    var o1 := StoreGuard(o, arg);
    var o2 := StoreBody(o1, arg, done);
    var o3 := Mark(o2, trap);
    var o4 := StoreTrap(o3);
    var o5 := Mark(o4, done);
    AddsGuard(o, arg, all);
    AddsStoreBody(o1, arg, done, all);
    AddsMark(o2, trap, all);
    AddsTrap(o3, all);
    AddsMark(o4, done, all);
    AddsTrans(o, o1, o2, all, 26, 20);
    AddsTrans(o, o2, o3, all, 46, 0);
    AddsTrans(o, o3, o4, all, 46, 25);
    AddsTrans(o, o4, o5, all, 71, 0);
    Marked(o2, trap);
    Marked(o4, done);
    KeysKept(o3, o4, all, 25);
    KeysKept(o4, o5, all, 0);
    AddsPlaced(o, o5, aims + {done}, trap, 71);
    AddsPlaced(o, o5, aims, done, 71);
  }

  lemma Marked(o: Obj, l: Label)
    ensures l in Mark(o, l).labels
  {
  }

  lemma KeysKept(o: Obj, o': Obj, aims: set<Label>, room: int)
    requires Adds(o, o', aims, room)
    ensures forall l :: l in o.labels ==> l in o'.labels
  {
  }

  lemma AddsHead(o: Obj, aims: set<Label>)
    requires Local(o.n + 2) in aims && Local(o.n + 3) in aims && Local(o.n + 4) in aims
    ensures Adds(o, IfHead(o), aims, 29)
  {
    hide Adds, Emit, Jump, VPopRax;
    var l := o.n;
    var o0 := o.(n := o.n + 4);
    var o1 := VPopRax(o0);
    var o2 := Emit(o1, CmpRaxZero);
    var o3 := Jump(o2, Jcc(Greater), Local(l + 2));
    var o4 := Jump(o3, Jcc(Equal), Local(l + 3));
    AddsBump(o, 4, aims);
    AddsVPopRax(o0, aims);
    AddsEmit(o1, CmpRaxZero, aims);
    AddsJump(o2, Jcc(Greater), Local(l + 2), aims);
    AddsJump(o3, Jcc(Equal), Local(l + 3), aims);
    AddsJump(o4, Jmp, Local(l + 4), aims);
    AddsTrans(o, o0, o1, aims, 0, 8);
    AddsTrans(o, o1, o2, aims, 8, 4);
    AddsTrans(o, o2, o3, aims, 12, 6);
    AddsTrans(o, o3, o4, aims, 18, 6);
    AddsTrans(o, o4, IfHead(o), aims, 24, 5);
  }

  // ----- bodies -----

  /** Every CALL in the record is for a program with a label in aims. */
  ghost predicate CallsIn(toks: seq<Token>, aims: set<Label>) {
    forall p: nat :: p + 4 < |toks| && IsVerb(toks, p) && toks[p + 4] == CALL ==>
      Prog(ReadInt(toks, p + 9, |toks|).0) in aims
  }

  ghost predicate Aiming(toks: seq<Token>, loops: seq<(Label, Label)>, aims: set<Label>) {
    && Epilogue in aims && CallsIn(toks, aims)
    && forall j :: 0 <= j < |loops| ==> loops[j].1 in aims
  }

  /** The compiler gets through o from i on, no further than hi. */
  ghost predicate Through(r: Compiled, i: nat, hi: nat, o: Obj, aims: set<Label>, more: int) {
    r.Some? && i <= r.value.1 <= hi && Adds(o, r.value.0, aims, RATE * (r.value.1 - i) + more)
  }

  lemma {:induction false} BodyCompiles(toks: seq<Token>, i: nat, hi: nat, o: Obj, loops: seq<(Label, Label)>,
                                        aims: set<Label>, inLoop: bool, top: bool)
    requires hi <= |toks| && Closed(toks, hi) && Sound(toks, i, hi, inLoop, top) && Aiming(toks, loops, aims)
    ensures Through(Body(toks, i, hi, o, loops), i, hi, o, aims, 0)
    decreases |toks| - i, 1
  {
    hide Adds, SoundOne, BodyOne, Closed, Aiming;
    AddsSelf(o, aims);
    if i < hi && toks[i] != RECORD {
      OneCompiles(toks, i, hi, o, loops, aims, inLoop);
      var r := BodyOne(toks, i, hi, o, loops).value;
      CompilerNext(toks, i, hi, inLoop, o, loops);
      BodyCompiles(toks, r.1, hi, r.0, loops, aims, inLoop, top);
      var r' := Body(toks, r.1, hi, r.0, loops).value;
      AddsTrans(o, r.0, r'.0, aims, RATE * (r.1 - i), RATE * (r'.1 - r.1));
    }
  }

  lemma {:induction false} OneCompiles(toks: seq<Token>, i: nat, hi: nat, o: Obj, loops: seq<(Label, Label)>,
                                       aims: set<Label>, inLoop: bool)
    requires i < hi <= |toks| && Closed(toks, hi) && SoundOne(toks, i, hi, inLoop).Some? && Aiming(toks, loops, aims)
    ensures Through(BodyOne(toks, i, hi, o, loops), i, |toks|, o, aims, 0)
    decreases |toks| - i, 0
  {
    hide Adds, Aiming, CallsIn, Sound, SoundVerb, VerbCode, Emit, VPush, Binary, EmitOut, Body, ReadInt, Match;
    var t := toks[i];
    if t == START && IsVerb(toks, i) {
      var cmd := toks[i + 4];
      var (arg, p) := if HasArg(cmd) then ReadInt(toks, i + 9, |toks|) else (0, i + 9);
      ReadIntClosed(toks, i + 9, hi, 0, false);
      if cmd == CALL {
        CallAims(toks, i, loops, aims);
      }
      VerbCompiles(cmd, arg, toks, p, hi, o, loops, aims, inLoop);
      var r := VerbCode(cmd, arg, toks, p, hi, o, loops).value;
      AddsRoom(o, r.0, aims, RATE * (r.1 - p) + 9 * RATE, RATE * (r.1 - i));
    } else if IsDigit(t) || IsNeg(t) {
      NumberCompiles(toks, i, o, aims);
    } else if PLUS <= t <= MUL {
      AddsBinary(o, t, aims);
      AddsRoom(o, Binary(o, ArithOp(t)), aims, 28, RATE);
    } else if t == EMIT {
      AddsOut(o, aims);
      AddsRoom(o, EmitOut(o), aims, 33, RATE);
    } else if t == LPAREN {
      MatchMono(toks, i, hi, 0);
      var m := Match(toks, i, |toks|).value;
      BodyCompiles(toks, i + 1, m, o, loops, aims, inLoop, false);
      var r := Body(toks, i + 1, m, o, loops).value;
      AddsRoom(o, r.0, aims, RATE * (r.1 - (i + 1)), RATE * (m + 1 - i));
    } else {
      AddsSelf(o, aims);
      AddsRoom(o, o, aims, 0, RATE);
    }
  }

  lemma CallAims(toks: seq<Token>, i: nat, loops: seq<(Label, Label)>, aims: set<Label>)
    requires Aiming(toks, loops, aims) && i + 4 < |toks| && IsVerb(toks, i) && toks[i + 4] == CALL
    ensures Prog(ReadInt(toks, i + 9, |toks|).0) in aims
  {
  }

  lemma NumberCompiles(toks: seq<Token>, i: nat, o: Obj, aims: set<Label>)
    requires i < |toks| && (IsDigit(toks[i]) || IsNeg(toks[i]))
    ensures var (v, p) := ReadInt(toks, i, |toks|);
            i < p <= |toks| && Adds(o, VPush(Emit(o, MovRaxImm(v))), aims, RATE * (p - i))
  {
    hide Adds, Emit, VPush;
    var (v, p) := ReadInt(toks, i, |toks|);
    ReadIntAdvances(toks, i, |toks|);
    var o1 := Emit(o, MovRaxImm(v));
    AddsEmit(o, MovRaxImm(v), aims);
    AddsVPush(o1, aims);
    AddsTrans(o, o1, VPush(o1), aims, 10, 8);
    AddsRoom(o, VPush(o1), aims, 18, RATE * (p - i));
  }

  lemma {:induction false} VerbCompiles(cmd: Token, arg: int, toks: seq<Token>, i: nat, hi: nat, o: Obj,
                                        loops: seq<(Label, Label)>, aims: set<Label>, inLoop: bool)
    requires i <= hi <= |toks| && Closed(toks, hi) && SoundVerb(cmd, arg, toks, i, hi, inLoop).Some?
             && Aiming(toks, loops, aims)
    requires cmd == CALL ==> Prog(arg) in aims
    ensures Through(VerbCode(cmd, arg, toks, i, hi, o, loops), i, |toks|, o, aims, 9 * RATE)
    decreases |toks| - i, 3
  {
    hide Adds, CallsIn, Closed, Sound, Emit, VPush, Jump, EmitStore;
    var room := 9 * RATE;
    if cmd == RET {
      AddsEmit(o, Ret, aims);
      AddsRoom(o, Emit(o, Ret), aims, 1, room);
    } else if cmd == CALL {
      AddsJump(o, CallRel, Prog(arg), aims);
      AddsRoom(o, Jump(o, CallRel, Prog(arg)), aims, 5, room);
    } else if cmd == READ {
      var i1 := LoadRax(OFF_SLOTS + arg * 8);
      AddsEmit(o, i1, aims);
      AddsVPush(Emit(o, i1), aims);
      AddsTrans(o, Emit(o, i1), VPush(Emit(o, i1)), aims, 7, 8);
      AddsRoom(o, VPush(Emit(o, i1)), aims, 15, room);
    } else if cmd == STORE {
      AddsStore(o, arg, aims);
      AddsRoom(o, EmitStore(o, arg), aims, 71, room);
    } else if cmd == IF {
      IfCompiles(toks, i, hi, o, loops, aims, inLoop);
    } else if cmd == LOOP {
      LoopCompiles(toks, i, hi, o, loops, aims, inLoop);
    } else {
      AddsSelf(o, aims);
      AddsRoom(o, o, aims, 0, room);
      if cmd == BREAK && loops != [] {
        AddsJump(o, Jmp, loops[|loops| - 1].1, aims);
        AddsRoom(o, Jump(o, Jmp, loops[|loops| - 1].1), aims, 5, room);
      }
    }
  }

  /** The regions stand one after another between lo and hi. */
  predicate Apart(regions: seq<(nat, nat)>, lo: nat, hi: nat) {
    if regions == [] then lo <= hi
    else lo < regions[0].0 <= regions[0].1 && Apart(regions[1..], regions[0].1 + 1, hi)
  }

  lemma {:induction false} ArmsApart(toks: seq<Token>, pos: nat, end: nat, limit: nat, max: nat)
    requires end <= limit <= |toks| && Arms(toks, pos, end, limit, max).Some?
    ensures Apart(Arms(toks, pos, end, limit, max).value.0, pos, Arms(toks, pos, end, limit, max).value.1)
    decreases max
  {
    hide Match, RegionsIn;
    if max > 0 && pos < end && toks[pos] == LPAREN {
      var m := Match(toks, pos, limit).value;
      ArmsApart(toks, m + 1, end, limit, max - 1);
      var rest := Arms(toks, m + 1, end, limit, max - 1).value.0;
      assert ([(pos + 1, m)] + rest)[1..] == rest;
    }
  }

  lemma AimingMore(toks: seq<Token>, loops: seq<(Label, Label)>, aims: set<Label>, more: set<Label>)
    requires Aiming(toks, loops, aims) && aims <= more
    ensures Aiming(toks, loops, more)
  {
    hide IsVerb, ReadInt;
  }

  lemma {:induction false} IfCompiles(toks: seq<Token>, i: nat, hi: nat, o: Obj, loops: seq<(Label, Label)>,
                                      aims: set<Label>, inLoop: bool)
    requires i <= hi <= |toks| && Closed(toks, hi) && SoundVerb(IF, 0, toks, i, hi, inLoop).Some?
             && Aiming(toks, loops, aims)
    ensures Through(VerbCode(IF, 0, toks, i, hi, o, loops), i, |toks|, o, aims, 9 * RATE)
    decreases |toks| - i, 2, 4
  {
    hide Adds, Aiming, Closed, Sound, Mark, IfHead, ArmsCode, Arms, Apart;
    ArmsMono(toks, i, hi, 3);
    ArmsApart(toks, i, hi, |toks|, 3);
    var (regions, p) := Arms(toks, i, hi, |toks|, 3).value;
    var l := o.n;
    var end := Local(l + 1);
    var all := aims + {end} + {Local(l + 2)} + {Local(l + 3)} + {Local(l + 4)};
    AimingMore(toks, loops, aims, all);
    var o1 := IfHead(o);
    AddsHead(o, all);
    ArmsCompile(toks, i, regions, 0, l, o1, loops, all, inLoop, i, p);
    var o2 := ArmsCode(toks, i, regions, 0, l, o1, loops).value;
    var o3 := Mark(o2, end);
    AddsMark(o2, end, all);
    AddsTrans(o, o1, o2, all, 29, RATE * (p - i) + 15);
    AddsTrans(o, o2, o3, all, RATE * (p - i) + 44, 0);
    Marked(o2, end);
    KeysKept(o2, o3, all, 0);
    var room := RATE * (p - i) + 44;
    AddsPlaced(o, o3, aims + {end} + {Local(l + 2)} + {Local(l + 3)}, Local(l + 4), room);
    AddsPlaced(o, o3, aims + {end} + {Local(l + 2)}, Local(l + 3), room);
    AddsPlaced(o, o3, aims + {end}, Local(l + 2), room);
    AddsPlaced(o, o3, aims, end, room);
    AddsRoom(o, o3, aims, room, RATE * (p - i) + 9 * RATE);
  }

  predicate ArmsPlaced(labels: map<Label, nat>, l: nat, idx: nat) {
    && (idx <= 0 ==> Local(l + 2) in labels)
    && (idx <= 1 ==> Local(l + 3) in labels)
    && (idx <= 2 ==> Local(l + 4) in labels)
  }

  /** The arms from idx on, the regions of which lie between lo and hi; the labels of
      the arms are placed as they come. */
  lemma {:induction false} ArmsCompile(toks: seq<Token>, i: nat, regions: seq<(nat, nat)>, idx: nat, l: nat, o: Obj,
                                       loops: seq<(Label, Label)>, aims: set<Label>, inLoop: bool, lo: nat, hi: nat)
    requires idx <= 3 && |regions| <= 3 && i <= lo
    requires forall a :: a in regions ==>
      i < a.0 <= a.1 < |toks| && toks[a.1] == RPAREN && Sound(toks, a.0, a.1, inLoop, false)
    requires Aiming(toks, loops, aims) && Local(l + 1) in aims
    requires Apart(if idx < |regions| then regions[idx..] else [], lo, hi)
    ensures var r := ArmsCode(toks, i, regions, idx, l, o, loops);
            && r.Some? && Adds(o, r.value, aims, RATE * (hi - lo) + 5 * (3 - idx))
            && ArmsPlaced(r.value.labels, l, idx)
    decreases |toks| - i, 2, 3 - idx
  {
    hide Adds, Aiming, Sound, Mark, Jump, Body;
    AddsSelf(o, aims);
    if idx < 3 {
      var mine := Local(l + 2 + idx);
      var o1 := Mark(o, mine);
      AddsMark(o, mine, aims);
      Marked(o, mine);
      var o2, next := o1, lo;
      AddsSelf(o1, aims);
      if idx < |regions| {
        var a := regions[idx];
        assert a in regions && regions[idx..][0] == a && regions[idx..][1..] == regions[idx + 1..];
        BodyCompiles(toks, a.0, a.1, o1, loops, aims, inLoop, false);
        var r := Body(toks, a.0, a.1, o1, loops).value;
        o2, next := r.0, a.1 + 1;
        AddsRoom(o1, o2, aims, RATE * (r.1 - a.0), RATE * (next - lo));
        assert (if idx + 1 < |regions| then regions[idx + 1..] else []) == regions[idx + 1..];
      }
      ApartOrder(if idx + 1 < |regions| then regions[idx + 1..] else [], next, hi);
      AddsJump(o2, Jmp, Local(l + 1), aims);
      var o3 := Jump(o2, Jmp, Local(l + 1));
      ArmsCompile(toks, i, regions, idx + 1, l, o3, loops, aims, inLoop, next, hi);
      var o4 := ArmsCode(toks, i, regions, idx + 1, l, o3, loops).value;
      AddsTrans(o, o1, o2, aims, 0, RATE * (next - lo));
      AddsTrans(o, o2, o3, aims, RATE * (next - lo), 5);
      AddsTrans(o, o3, o4, aims, RATE * (next - lo) + 5, RATE * (hi - next) + 5 * (3 - (idx + 1)));
      KeysKept(o1, o2, aims, RATE * (next - lo));
      KeysKept(o2, o3, aims, 5);
      KeysKept(o3, o4, aims, RATE * (hi - next) + 5 * (3 - (idx + 1)));
    } else {
      ApartOrder([], lo, hi);
      AddsRoom(o, o, aims, 0, RATE * (hi - lo));
    }
  }

  lemma {:induction false} ApartOrder(regions: seq<(nat, nat)>, lo: nat, hi: nat)
    requires Apart(regions, lo, hi)
    ensures lo <= hi
  {
    if regions != [] {
      ApartOrder(regions[1..], regions[0].1 + 1, hi);
    }
  }

  lemma {:induction false} LoopCompiles(toks: seq<Token>, i: nat, hi: nat, o: Obj, loops: seq<(Label, Label)>,
                                        aims: set<Label>, inLoop: bool)
    requires i <= hi <= |toks| && Closed(toks, hi) && SoundVerb(LOOP, 0, toks, i, hi, inLoop).Some?
             && Aiming(toks, loops, aims)
    ensures Through(VerbCode(LOOP, 0, toks, i, hi, o, loops), i, |toks|, o, aims, 9 * RATE)
    decreases |toks| - i, 2, 4
  {
    hide Adds, CallsIn, Sound, Mark, Jump, Body, Match;
    MatchMono(toks, i, hi, 0);
    var m := Match(toks, i, |toks|).value;
    var top, brk := Local(o.n + 1), Local(o.n + 2);
    var all, inner := aims + {brk}, loops + [(top, brk)];
    AimingMore(toks, loops, aims, all);
    var o0 := o.(n := o.n + 2);
    var o1 := Mark(o0, top);
    AddsBump(o, 2, all);
    AddsMark(o0, top, all);
    Marked(o0, top);
    BodyCompiles(toks, i + 1, m, o1, inner, all, true, false);
    var r := Body(toks, i + 1, m, o1, inner).value;
    var o2 := r.0;
    var room := RATE * (r.1 - (i + 1));
    KeysKept(o1, o2, all, room);
    AddsJump(o2, Jmp, top, all);
    var o3 := Jump(o2, Jmp, top);
    var o4 := Mark(o3, brk);
    AddsMark(o3, brk, all);
    Marked(o3, brk);
    AddsTrans(o, o0, o1, all, 0, 0);
    AddsTrans(o, o1, o2, all, 0, room);
    AddsTrans(o, o2, o3, all, room, 5);
    AddsTrans(o, o3, o4, all, room + 5, 0);
    AddsPlaced(o, o4, aims, brk, room + 5);
    AddsRoom(o, o4, aims, room + 5, RATE * (m + 1 - i) + 9 * RATE);
  }

  // ----- whole sets of programs -----

  function Slots(progs: Source): set<int> {
    set k | 0 <= k < |progs| :: progs[k].0
  }

  /** The entry and every slot called from a loaded program are loaded. */
  ghost predicate Callable(progs: Source, entry: int) {
    && entry in Slots(progs)
    && forall k, p: nat ::
         0 <= k < |progs| && p + 4 < |progs[k].1| && IsVerb(progs[k].1, p) && progs[k].1[p + 4] == CALL ==>
         ReadInt(progs[k].1, p + 9, |progs[k].1|).0 in Slots(progs)
  }

  /** Forty bytes for each token after a header, and a return. */
  function CodeBound(progs: Source): int {
    if progs == [] then 0
    else RATE * (|progs[0].1| - |VerbArg(DEF, progs[0].0)|) + 1 + CodeBound(progs[1..])
  }

  function Aims(progs: Source): set<Label> {
    (set slot | slot in Slots(progs) :: Prog(slot)) + {Epilogue}
  }

  lemma ProgramCompiles(p: (int, seq<Token>), o: Obj, aims: set<Label>)
    requires SoundProgram(p.0, p.1) && Epilogue in aims && CallsIn(p.1, aims)
    ensures ProgramCode(p, o).Some? && Prog(p.0) in ProgramCode(p, o).value.labels
    ensures Adds(o, ProgramCode(p, o).value, aims, RATE * (|p.1| - |VerbArg(DEF, p.0)|) + 1)
  {
    hide Adds, Sound, CallsIn, Body, Mark, Emit;
    HeaderSkipped(p.0, p.1);
    var h := |VerbArg(DEF, p.0)|;
    var o1 := Mark(o, Prog(p.0));
    AddsMark(o, Prog(p.0), aims);
    Marked(o, Prog(p.0));
    BodyCompiles(p.1, h, |p.1|, o1, [], aims, false, true);
    var r := Body(p.1, h, |p.1|, o1, []).value;
    AddsRoom(o1, r.0, aims, RATE * (r.1 - h), RATE * (|p.1| - h));
    AddsEmit(r.0, Ret, aims);
    AddsTrans(o, o1, r.0, aims, 0, RATE * (|p.1| - h));
    AddsTrans(o, r.0, Emit(r.0, Ret), aims, RATE * (|p.1| - h), 1);
    KeysKept(o1, r.0, aims, RATE * (|p.1| - h));
    KeysKept(r.0, Emit(r.0, Ret), aims, 1);
  }

  lemma {:induction false} ProgramsCompile(progs: Source, o: Obj, aims: set<Label>)
    requires Epilogue in aims
    requires forall k :: 0 <= k < |progs| ==> SoundProgram(progs[k].0, progs[k].1) && CallsIn(progs[k].1, aims)
    ensures ProgramsCode(progs, o).Some? && Adds(o, ProgramsCode(progs, o).value, aims, CodeBound(progs))
    ensures forall slot :: slot in Slots(progs) ==> Prog(slot) in ProgramsCode(progs, o).value.labels
    decreases |progs|
  {
    hide Adds, SoundProgram, CallsIn, ProgramCode, VerbArg;
    if progs == [] {
      AddsSelf(o, aims);
    } else {
      var rest := progs[1..];
      assert forall k :: 0 <= k < |rest| ==> rest[k] == progs[k + 1];
      ProgramCompiles(progs[0], o, aims);
      var o1 := ProgramCode(progs[0], o).value;
      ProgramsCompile(rest, o1, aims);
      var o2 := ProgramsCode(rest, o1).value;
      var room := RATE * (|progs[0].1| - |VerbArg(DEF, progs[0].0)|) + 1;
      AddsTrans(o, o1, o2, aims, room, CodeBound(rest));
      KeysKept(o1, o2, aims, CodeBound(rest));
      forall slot | slot in Slots(progs) ensures Prog(slot) in o2.labels {
        if slot != progs[0].0 {
          assert slot in Slots(rest);
        }
      }
    }
  }

  lemma AddsOpening(entry: int, aims: set<Label>)
    requires Prog(entry) in aims
    ensures Adds(NEW_OBJ, Closing(Prologue(entry)), aims, 31) && Epilogue in Closing(Prologue(entry)).labels
  {
    hide Adds, Emit, Jump, Mark;
    var a1 := Emit(NEW_OBJ, PushReg(R15));
    var a2 := Emit(a1, PushReg(R14));
    var a3 := Emit(a2, PushReg(R13));
    var a4 := Emit(a3, MovR15Rdi);
    var a5 := Emit(a4, MovR14Rsp);
    var a6 := Emit(a5, LeaR13(OFF_VTOP));
    var a7 := Jump(a6, CallRel, Prog(entry));
    AddsEmit(NEW_OBJ, PushReg(R15), aims);
    AddsEmit(a1, PushReg(R14), aims);
    AddsEmit(a2, PushReg(R13), aims);
    AddsEmit(a3, MovR15Rdi, aims);
    AddsEmit(a4, MovR14Rsp, aims);
    AddsEmit(a5, LeaR13(OFF_VTOP), aims);
    AddsJump(a6, CallRel, Prog(entry), aims);
    AddsTrans(NEW_OBJ, a1, a2, aims, 2, 2);
    AddsTrans(NEW_OBJ, a2, a3, aims, 4, 2);
    AddsTrans(NEW_OBJ, a3, a4, aims, 6, 3);
    AddsTrans(NEW_OBJ, a4, a5, aims, 9, 3);
    AddsTrans(NEW_OBJ, a5, a6, aims, 12, 7);
    AddsTrans(NEW_OBJ, a6, a7, aims, 19, 5);
    AddsClosing(a7, aims);
    AddsTrans(NEW_OBJ, a7, Closing(a7), aims, 24, 7);
  }

  lemma AddsClosing(o: Obj, aims: set<Label>)
    ensures Adds(o, Closing(o), aims, 7) && Epilogue in Closing(o).labels
  {
    hide Adds, Emit, Mark;
    var b0 := Mark(o, Epilogue);
    var b1 := Emit(b0, PopReg(R13));
    var b2 := Emit(b1, PopReg(R14));
    var b3 := Emit(b2, PopReg(R15));
    AddsMark(o, Epilogue, aims);
    Marked(o, Epilogue);
    AddsEmit(b0, PopReg(R13), aims);
    AddsEmit(b1, PopReg(R14), aims);
    AddsEmit(b2, PopReg(R15), aims);
    AddsEmit(b3, Ret, aims);
    AddsTrans(b0, b1, b2, aims, 2, 2);
    AddsTrans(b0, b2, b3, aims, 4, 2);
    AddsTrans(b0, b3, Closing(o), aims, 6, 1);
    KeysKept(b0, Closing(o), aims, 7);
    AddsTrans(o, b0, Closing(o), aims, 0, 7);
  }

  lemma {:induction false} ResolveSucceeds(b: seq<Byte>, fixups: seq<(nat, Label)>, labels: map<Label, nat>)
    requires forall k :: 0 <= k < |fixups| ==> fixups[k].1 in labels && fixups[k].0 + 4 <= |b|
    ensures Resolve(b, fixups, labels).Some? && |Resolve(b, fixups, labels).value| == |b|
    decreases |fixups|
  {
    hide Patch;
    if fixups != [] {
      var (pos, l) := fixups[0];
      var rest := fixups[1..];
      assert forall k :: 0 <= k < |rest| ==> rest[k] == fixups[k + 1];
      var v: int := labels[l] as int - (pos + 4);
      ResolveSucceeds(Patch(b, pos, v), rest, labels);
    }
  }

  lemma CallsAimed(progs: Source, entry: int, k: nat)
    requires Callable(progs, entry) && k < |progs|
    ensures CallsIn(progs[k].1, Aims(progs)) && Prog(entry) in Aims(progs) && Epilogue in Aims(progs)
  {
    hide IsVerb, ReadInt;
  }

  /** Sound programs whose calls and entry are loaded do compile and link, and the
      image is no longer than forty bytes a token. */
  lemma Compiles(progs: Source, entry: int)
    requires Callable(progs, entry)
    requires forall k :: 0 <= k < |progs| ==> SoundProgram(progs[k].0, progs[k].1)
    requires forall j, k :: 0 <= j < k < |progs| ==> progs[j].0 != progs[k].0
    ensures CompileAll(progs, entry).Some? && |CompileAll(progs, entry).value| <= 31 + CodeBound(progs)
  {
    hide Adds, SoundProgram, CallsIn, Prologue, Closing, ProgramsCode, Resolve, CodeBound, Good, Callable, Within;
    var aims := Aims(progs);
    var o := Closing(Prologue(entry));
    forall k | 0 <= k < |progs| ensures CallsIn(progs[k].1, aims) {
      CallsAimed(progs, entry, k);
    }
    assert Prog(entry) in aims by {
      assert entry in Slots(progs) by { EntryLoaded(progs, entry); }
    }
    AddsOpening(entry, aims);
    ProgramsCompile(progs, o, aims);
    var f := ProgramsCode(progs, o).value;
    AddsTrans(NEW_OBJ, o, f, aims, 31, CodeBound(progs));
    KeysKept(o, f, aims, CodeBound(progs));
    PrologueGood(entry);
    ClosingGood(Prologue(entry));
    ProgramsGood(progs, o);
    AllPlaced(progs, f, aims, 31 + CodeBound(progs));
    ResolveSucceeds(f.b, f.fixups, f.labels);
  }

  lemma EntryLoaded(progs: Source, entry: int)
    requires Callable(progs, entry)
    ensures entry in Slots(progs)
  {
  }

  lemma AllPlaced(progs: Source, f: Obj, aims: set<Label>, room: int)
    requires Adds(NEW_OBJ, f, aims, room) && Good(f) && aims == Aims(progs)
    requires Epilogue in f.labels && forall slot :: slot in Slots(progs) ==> Prog(slot) in f.labels
    ensures |f.b| <= room
    ensures forall k :: 0 <= k < |f.fixups| ==> f.fixups[k].1 in f.labels && f.fixups[k].0 + 4 <= |f.b|
  {
  }

  /** Compiler correctness with conditions on the programs alone: nothing is assumed
      of the compiler's output. */
  lemma LoadedAgree(progs: Source, entry: int, env: Env, slots: map<int, int>,
                    rax: int, rbx: int, rcx: int, r13: int, r14: int, r15: int) returns (c': Cpu)
    requires Loads(progs, env.programs) && env.attached && ArenaOk(env, slots)
    requires forall k :: 0 <= k < |progs| ==> SoundProgram(progs[k].0, progs[k].1)
    requires Callable(progs, entry) && 31 + CodeBound(progs) < 0x8000_0000
    requires Finished(CallSlot(AsRead(env), entry, Fresh(slots, rax)))
    ensures CompileAll(progs, entry).Some? && (env.holder != -1 ==> AsRead(env) == env)
    ensures EndsAs(CompileAll(progs, entry).value, Enter(ArenaFor(env, slots), rax, rbx, rcx, r13, r14, r15), c',
                   CallSlot(AsRead(env), entry, Fresh(slots, rax)))
  {
    hide CallSlot, CompileAll, SoundProgram, ArenaFor, CodeBound, Callable, EndsAs, AsRead;
    Compiles(progs, entry);
    c' := NativeAgrees(progs, entry, env, slots, rax, rbx, rcx, r13, r14, r15);
  }
}
