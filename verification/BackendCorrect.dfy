/** The native backend preserves meaning: whenever the walker finishes a program
    of the domain, normally or by a refused write, the linked code reaches the
    same output, slots and refusal. The proof follows the walk, construct by
    construct; its measure is the step budget left. */
module BackendCorrect {
  import opened Lexicon
  import opened Interp
  import opened Native
  import opened Backend
  import opened Linking
  import opened Domain
  import opened Arena

  /** The finished code of the program at slot starts where o ends. */
  ghost predicate PlacedAt(x: Ctx, slot: int, o: Obj) {
    && slot in x.env.programs && Good(o) && Prog(slot) !in o.labels
    && ProgramCode((slot, x.env.programs[slot]), o).Some?
    && Within(ProgramCode((slot, x.env.programs[slot]), o).value, x.obj)
  }

  ghost predicate Ready(x: Ctx) {
    && Linked(x.obj, x.img) && Epilogue in x.obj.labels
    && x.env.attached && HolderOk(x.env)
    && (forall slot :: slot in x.env.programs ==>
          SoundProgram(slot, x.env.programs[slot]) && exists o :: PlacedAt(x, slot, o))
  }

  ghost predicate Live(env: Env, st: State, c: Cpu) {
    Mirrors(env, st, c) && c.rax == st.last
  }

  /** Where the native code stands when the walk of a construct ended with r:
      past its code, at the innermost loop's exit, returned, or trapped. */
  ghost predicate Ends(x: Ctx, at: nat, loops: seq<(Label, Label)>, c: Cpu, r: (State, Outcome), c': Cpu) {
    match r.1
    case Fall(_) => Live(x.env, r.0, c') && c'.pc == at && Frame(c, c')
    case Broke =>
      && loops != [] && loops[|loops| - 1].1 in x.obj.labels
      && Live(x.env, r.0, c') && c'.pc == x.obj.labels[loops[|loops| - 1].1] && Frame(c, c')
    case Returned =>
      && Live(x.env, r.0, c') && c.stk != []
      && c'.pc == c.stk[|c.stk| - 1] && c'.stk == c.stk[..|c.stk| - 1] && c'.r14 == c.r14
    case Refused => Trapped(x, r.0, c, c')
    case Failed(_) => false
  }

  predicate Finished(r: (State, Outcome)) {
    !r.1.Failed? && r.0.fits
  }

  ghost predicate Starts(x: Ctx, o: Obj, st: State, c: Cpu) {
    && Ready(x) && Good(o) && Live(x.env, st, c) && c.pc == |o.b|
    && 0 <= c.r14 < |c.stk| && st.steps <= x.env.maxSteps
  }

  function CodeEnd(o: Obj, top: bool): Obj {
    if top then Emit(o, Ret) else o
  }

  lemma CodeEndWithin(o: Obj, top: bool, f: Obj)
    requires Within(CodeEnd(o, top), f)
    ensures Within(o, f)
  {
    if top {
      EmitWithin(o, Ret, f);
    }
  }

  /** The positions at which the walker and the domain leave a construct agree. */
  lemma WalkerNext(env: Env, toks: seq<Token>, i: nat, hi: nat, inLoop: bool, s: State)
    requires i < hi <= |toks| && SoundOne(toks, i, hi, inLoop).Some?
    ensures ExecOne(env, toks, i, hi, s).1.Fall?
            ==> ExecOne(env, toks, i, hi, s).1.pos == SoundOne(toks, i, hi, inLoop).value
  {
    hide Dispatch, SoundVerb, Exec, Sound, Match, ReadInt;
    var t := toks[i];
    if t == START && IsVerb(toks, i) {
      var cmd := toks[i + 4];
      var (arg, p) := if HasArg(cmd) then ReadInt(toks, i + 9, hi) else (0, i + 9);
      VerbNext(env, cmd, arg, toks, p, hi, inLoop, s);
    }
  }

  lemma VerbNext(env: Env, cmd: Token, arg: int, toks: seq<Token>, p: nat, hi: nat, inLoop: bool, s: State)
    requires p <= hi <= |toks| && SoundVerb(cmd, arg, toks, p, hi, inLoop).Some?
    ensures var o := Dispatch(env, cmd, arg, toks, p, hi, s).1;
            o.Fall? ==> o.pos == SoundVerb(cmd, arg, toks, p, hi, inLoop).value
  {
    hide Exec, CallSlot, StoreSlot, Loop, Sound, Match, Arms, ParseInts;
    if cmd == LOOP {
      LoopFalls(env, toks, p + 1, Match(toks, p, hi).value, s);
    }
  }

  lemma {:induction false} LoopFalls(env: Env, toks: seq<Token>, lo: nat, hi: nat, st: State)
    requires hi <= |toks|
    ensures Loop(env, toks, lo, hi, st).1.Fall? ==> Loop(env, toks, lo, hi, st).1.pos == hi + 1
    decreases Remaining(env, st)
  {
    var s := Tick(st);
    if s.steps <= env.maxSteps {
      var (s', o) := Exec(env, toks, lo, hi, s);
      if o.Fall? {
        LoopFalls(env, toks, lo, hi, s');
      }
    }
  }

  lemma EndsAfter(x: Ctx, at: nat, loops: seq<(Label, Label)>, c: Cpu, c1: Cpu, r: (State, Outcome), c': Cpu)
    requires Ends(x, at, loops, c1, r, c') && Frame(c, c1)
    ensures Ends(x, at, loops, c, r, c')
  {
  }

  /** Nothing a finished walk did on its way left the native ranges. */
  lemma StillFits(env: Env, toks: seq<Token>, i: nat, hi: nat, s: State)
    requires hi <= |toks| && s.steps <= env.maxSteps && Finished(Exec(env, toks, i, hi, s))
    ensures s.fits && Exec(env, toks, i, hi, s).0.steps <= env.maxSteps
  {
    ExecConfined(env, toks, i, hi, s);
  }

  // ----- the simulation -----

  lemma {:induction false} SimExec(x: Ctx, toks: seq<Token>, i: nat, hi: nat, o: Obj, loops: seq<(Label, Label)>,
      top: bool, st: State, c: Cpu)
    returns (c': Cpu)
    requires hi <= |toks| && Closed(toks, hi) && Sound(toks, i, hi, loops != [], top)
    requires Starts(x, o, st, c) && Body(toks, i, hi, o, loops).Some?
    requires Within(CodeEnd(Body(toks, i, hi, o, loops).value.0, top), x.obj)
    requires Finished(Exec(x.env, toks, i, hi, st))
    ensures Reaches(x.img, c, c')
    ensures Ends(x, |Body(toks, i, hi, o, loops).value.0.b|, loops, c, Exec(x.env, toks, i, hi, st), c')
    decreases Remaining(x.env, st), 0
  {
    hide Within, Reaches, Good, Grows, Mirrors, BodyOne, SoundOne, ExecOne, Linked;
    if i >= hi {
      c' := c;
      ReachesSelf(x.img, c);
    } else if toks[i] == RECORD {
      c' := SimRecord(x, toks, i, hi, o, st, c);
    } else {
      var s := Tick(st);
      var b1 := BodyOne(toks, i, hi, o, loops).value;
      var n := SoundOne(toks, i, hi, loops != []).value;
      var r1 := ExecOne(x.env, toks, i, hi, s);
      var o' := Body(toks, i, hi, o, loops).value.0;
      CompilerNext(toks, i, hi, loops != [], o, loops);
      WalkerNext(x.env, toks, i, hi, loops != [], s);
      BodyOneGood(toks, i, hi, o, loops);
      BodyGood(toks, n, hi, b1.0, loops);
      CodeEndWithin(o', top, x.obj);
      GrowsWithin(b1.0.n, b1.0, o', x.obj);
      ExecOneConfined(x.env, toks, i, hi, s);
      if r1.1.Fall? {
        StillFits(x.env, toks, n, hi, r1.0);
      }
      TickLive(x.env, st, c);
      var c1 := SimOne(x, toks, i, hi, o, loops, s, c);
      if r1.1.Fall? {
        c' := SimExec(x, toks, n, hi, b1.0, loops, top, r1.0, c1);
        EndsAfter(x, |o'.b|, loops, c, c1, Exec(x.env, toks, n, hi, r1.0), c');
        ReachesTrans(x.img, c, c1, c');
      } else {
        c' := c1;
      }
    }
  }

  lemma TickLive(env: Env, st: State, c: Cpu)
    requires Live(env, st, c)
    ensures Live(env, Tick(st), c)
  {
  }

  /** RECORD ends a program: no code of its own, the closing return follows. */
  lemma SimRecord(x: Ctx, toks: seq<Token>, i: nat, hi: nat, o: Obj, st: State, c: Cpu) returns (c': Cpu)
    requires i < hi <= |toks| && toks[i] == RECORD
    requires Starts(x, o, st, c) && Within(Emit(o, Ret), x.obj)
    requires Finished(Exec(x.env, toks, i, hi, st))
    ensures Reaches(x.img, c, c')
    ensures Ends(x, |o.b|, [], c, Exec(x.env, toks, i, hi, st), c')
    ensures Exec(x.env, toks, i, hi, st).1.Returned?
  {
    hide Within, Reaches, Good, Linked, StackAt, OutputAt, SlotsAt, GatesAt, Emit;
    StepEmit(x, o, Ret, c);
    c' := Effect(Ret, c, |Emit(o, Ret).b|, |Emit(o, Ret).b|);
    assert ExecOne(x.env, toks, i, hi, Tick(st)) == (Tick(st), Returned);
    assert Exec(x.env, toks, i, hi, st) == (Tick(st), Returned);
  }

  lemma {:induction false} SimOne(x: Ctx, toks: seq<Token>, i: nat, hi: nat, o: Obj, loops: seq<(Label, Label)>,
      s: State, c: Cpu)
    returns (c': Cpu)
    requires i < hi <= |toks| && Closed(toks, hi) && toks[i] != RECORD
    requires SoundOne(toks, i, hi, loops != []).Some?
    requires Starts(x, o, s, c) && BodyOne(toks, i, hi, o, loops).Some?
    requires Within(BodyOne(toks, i, hi, o, loops).value.0, x.obj)
    requires Finished(ExecOne(x.env, toks, i, hi, s))
    ensures Reaches(x.img, c, c')
    ensures Ends(x, |BodyOne(toks, i, hi, o, loops).value.0.b|, loops, c, ExecOne(x.env, toks, i, hi, s), c')
    decreases Remaining(x.env, s), 4
  {
    hide Within, Reaches, Good, Grows, Mirrors, Linked, VerbCode, SoundVerb, Dispatch, Body, Sound, Exec, Match,
         ReadInt, Binary, EmitOut, VPush, Emit;
    var t := toks[i];
    if t == START && IsVerb(toks, i) {
      var cmd := toks[i + 4];
      var (arg, p) := if HasArg(cmd) then ReadInt(toks, i + 9, hi) else (0, i + 9);
      ReadIntClosed(toks, i + 9, hi, 0, false);
      c' := SimVerb(x, cmd, arg, toks, p, hi, o, loops, s, c);
    } else if IsDigit(t) || IsNeg(t) {
      ReadIntClosed(toks, i, hi, 0, false);
      var (v, p) := ReadInt(toks, i, hi);
      c' := NumberRuns(x, o, v, s, c);
    } else if IsOp(t) {
      PushedFits(Pop(Pop(s)), Apply(t, Top(Pop(s)), Top(s)));
      c' := BinaryRuns(x, o, t, s, c);
    } else if t == EMIT {
      c' := EmitOutRuns(x, o, s, c);
    } else if t == LPAREN {
      var m := Match(toks, i, hi).value;
      MatchMono(toks, i, hi, 0);
      c' := SimExec(x, toks, i + 1, m, o, loops, false, s, c);
    } else {
      c' := c;
      ReachesSelf(x.img, c);
    }
  }

  lemma PushedFits(st: State, v: int)
    requires Push(st, v).fits
    ensures InWord(v) && |st.stack| < STACK_CAP
  {
  }

  lemma {:induction false} SimVerb(x: Ctx, cmd: Token, arg: int, toks: seq<Token>, p: nat, hi: nat, o: Obj,
      loops: seq<(Label, Label)>, s: State, c: Cpu)
    returns (c': Cpu)
    requires p <= hi <= |toks| && Closed(toks, hi)
    requires SoundVerb(cmd, arg, toks, p, hi, loops != []).Some?
    requires Starts(x, o, s, c) && VerbCode(cmd, arg, toks, p, hi, o, loops).Some?
    requires Within(VerbCode(cmd, arg, toks, p, hi, o, loops).value.0, x.obj)
    requires Finished(Dispatch(x.env, cmd, arg, toks, p, hi, s))
    ensures Reaches(x.img, c, c')
    ensures Ends(x, |VerbCode(cmd, arg, toks, p, hi, o, loops).value.0.b|, loops, c,
            Dispatch(x.env, cmd, arg, toks, p, hi, s), c')
    decreases Remaining(x.env, s), 3
  {
    hide Within, Reaches, Good, Grows, Mirrors, Linked, Body, Sound, Exec, CallSlot, Loop, Match, Arms, ArmsCode,
         IfHead, ParseInts, EmitStore, VPush, Emit, Jump, StoreSlot, HolderOk, SoundProgram, PlacedAt, Live;
    if cmd == CALL {
      c' := SimCall(x, arg, o, s, c);
    } else if cmd == RET {
      c' := SimRet(x, o, s, c);
    } else if cmd == READ {
      c' := SimRead(x, arg, o, p, s, c);
    } else if cmd == STORE {
      c' := SimStore(x, arg, o, p, s, c);
    } else if cmd == IF {
      c' := SimIf(x, toks, p, hi, o, loops, s, c);
    } else if cmd == LOOP {
      c' := SimLoopVerb(x, toks, p, hi, o, loops, s, c);
    } else if cmd == BREAK {
      c' := SimBreak(x, o, loops, s, c);
    } else {
      c' := c;
      ReachesSelf(x.img, c);
    }
  }

  lemma SimRet(x: Ctx, o: Obj, s: State, c: Cpu) returns (c': Cpu)
    requires Starts(x, o, s, c) && Within(Emit(o, Ret), x.obj)
    ensures Reaches(x.img, c, c') && Ends(x, |Emit(o, Ret).b|, [], c, (s, Returned), c')
  {
    hide Within, Reaches, Good, Mirrors, Linked, Emit, HolderOk, SoundProgram, PlacedAt;
    StepEmit(x, o, Ret, c);
    c' := Effect(Ret, c, |Emit(o, Ret).b|, |Emit(o, Ret).b|);
    LiveMoves(x.env, s, c, c');
  }

  lemma SimRead(x: Ctx, slot: int, o: Obj, p: nat, s: State, c: Cpu) returns (c': Cpu)
    requires Starts(x, o, s, c) && 0 <= slot < NSLOT && slot in s.grid && ParseInts(s.grid[slot]) != []
    requires Within(VPush(Emit(o, LoadRax(OFF_SLOTS + slot * 8))), x.obj)
    requires Push(s, ParseInts(s.grid[slot])[0]).fits
    ensures Reaches(x.img, c, c')
    ensures Ends(x, |VPush(Emit(o, LoadRax(OFF_SLOTS + slot * 8))).b|, [], c,
            (Push(s, ParseInts(s.grid[slot])[0]), Fall(p)), c')
  {
    hide Within, Reaches, Good, Mirrors, Linked, Emit, VPush, ParseInts, HolderOk, SoundProgram, PlacedAt;
    var v := ParseInts(s.grid[slot])[0];
    SlotAt(x.env, s, c, slot);
    PushedFits(s, v);
    c' := ReadRuns(x, o, slot, v, s, c);
  }

  lemma SimStore(x: Ctx, slot: int, o: Obj, p: nat, s: State, c: Cpu) returns (c': Cpu)
    requires Starts(x, o, s, c) && 0 <= slot < NSLOT && s.stack != [] && Within(EmitStore(o, slot), x.obj)
    ensures Reaches(x.img, c, c')
    ensures Ends(x, |EmitStore(o, slot).b|, [], c, Resume(StoreSlot(x.env, slot, Top(s), Pop(s)), p), c')
  {
    hide Within, Reaches, Good, Mirrors, Linked, EmitStore, StoreSlot, HolderOk, SoundProgram, PlacedAt;
    c' := StoreRuns(x, o, slot, s, c);
    StoreFalls(x.env, slot, Top(s), Pop(s));
  }

  lemma SimBreak(x: Ctx, o: Obj, loops: seq<(Label, Label)>, s: State, c: Cpu) returns (c': Cpu)
    requires loops != [] && Starts(x, o, s, c) && Within(Jump(o, Jmp, loops[|loops| - 1].1), x.obj)
    ensures Reaches(x.img, c, c')
    ensures Ends(x, |Jump(o, Jmp, loops[|loops| - 1].1).b|, loops, c, (s, Broke), c')
  {
    hide Within, Reaches, Good, Mirrors, Linked, Jump, HolderOk, SoundProgram, PlacedAt;
    c' := JumpBack(x, o, loops[|loops| - 1].1, s, c);
  }

  lemma LiveMoves(env: Env, st: State, c: Cpu, c': Cpu)
    requires Live(env, st, c) && c'.mem == c.mem && c'.r13 == c.r13 && c'.r15 == c.r15 && c'.rax == c.rax
    ensures Live(env, st, c')
  {
  }

  lemma SlotAt(env: Env, s: State, c: Cpu, slot: int)
    requires Mirrors(env, s, c) && slot in s.grid && 0 <= slot < NSLOT && ParseInts(s.grid[slot]) != []
    ensures |c.mem| == TOP_CELL && c.mem[slot] == ParseInts(s.grid[slot])[0]
  {
  }

  lemma StoreFalls(env: Env, slot: int, v: int, s: State)
    requires env.attached && 0 <= slot
    ensures StoreSlot(env, slot, v, s).1 == Fall(0) || StoreSlot(env, slot, v, s).1.Refused?
    ensures StoreSlot(env, slot, v, s).0.last == s.last
  {
  }

  // ----- CALL -----

  /** The walk of a loaded record begins, one tick later, where its code does. */
  lemma HeaderWalked(env: Env, slot: int, toks: seq<Token>, s: State)
    requires VerbArg(DEF, slot) <= toks
    ensures Tick(s).steps <= env.maxSteps ==>
            Exec(env, toks, 0, |toks|, s) == Exec(env, toks, SkipHeader(toks), |toks|, Tick(s))
    ensures Tick(s).steps > env.maxSteps ==> Exec(env, toks, 0, |toks|, s).1.Failed?
  {
    hide ReadInt, SkipHeader, EncodeInteger;
    HeaderSkipped(slot, toks);
    var e := |VerbArg(DEF, slot)|;
    assert Dispatch(env, DEF, slot, toks, e, |toks|, Tick(s)) == (Tick(s), Fall(e));
    assert toks[0] == toks[0..4][0] == START;
    assert ExecOne(env, toks, 0, |toks|, Tick(s)) == (Tick(s), Fall(e));
  }

  lemma PlacementLabels(x: Ctx, slot: int, o: Obj)
    requires PlacedAt(x, slot, o)
    ensures var toks := x.env.programs[slot];
            var o1 := Mark(o, Prog(slot));
            var r := Body(toks, SkipHeader(toks), |toks|, o1, []);
            && Good(o1) && o1.b == o.b && r.Some? && Within(Emit(r.value.0, Ret), x.obj)
            && Prog(slot) in x.obj.labels && x.obj.labels[Prog(slot)] == |o.b|
  {
    hide SkipHeader, Body;
    var toks := x.env.programs[slot];
    var o1 := Mark(o, Prog(slot));
    BodyGood(toks, SkipHeader(toks), |toks|, o1, []);
    var o2 := Body(toks, SkipHeader(toks), |toks|, o1, []).value.0;
    EmitWithin(o2, Ret, x.obj);
    GrowsWithin(o1.n, o1, o2, x.obj);
    assert Prog(slot) in o1.labels;
  }

  lemma {:induction false} SimCall(x: Ctx, slot: int, o: Obj, s: State, c: Cpu) returns (c': Cpu)
    requires Starts(x, o, s, c) && Within(Jump(o, CallRel, Prog(slot)), x.obj)
    requires Finished(CallSlot(x.env, slot, s))
    ensures Reaches(x.img, c, c')
    ensures Ends(x, |Jump(o, CallRel, Prog(slot)).b|, [], c, CallSlot(x.env, slot, s), c')
    decreases Remaining(x.env, s), 2
  {
    hide Within, Reaches, Good, Grows, Linked, SkipHeader, Jump, PlacedAt, Live, Trapped, CallSlot;
    var next := |Jump(o, CallRel, Prog(slot)).b|;
    CalledLoaded(x.env, slot, s);
    var o0 :| PlacedAt(x, slot, o0);
    var c1 := CallStep(x, slot, o, o0, s, c);
    c' := SimProgram(x, slot, o0, s, c1);
    ReachesTrans(x.img, c, c1, c');
    assert c1.stk[..|c1.stk| - 1] == c.stk;
    assert c1.stk[..c.r14] == c.stk[..c.r14];
    if CallSlot(x.env, slot, s).1.Refused? {
      TrapAfterCall(x, CallSlot(x.env, slot, s).0, c, c1, c');
    }
  }

  lemma CalledLoaded(env: Env, slot: int, s: State)
    requires Finished(CallSlot(env, slot, s))
    ensures slot in env.programs
  {
  }

  lemma CallStep(x: Ctx, slot: int, o: Obj, o0: Obj, s: State, c: Cpu) returns (c1: Cpu)
    requires Starts(x, o, s, c) && Within(Jump(o, CallRel, Prog(slot)), x.obj) && PlacedAt(x, slot, o0)
    ensures Reaches(x.img, c, c1) && Live(x.env, s, c1)
    ensures c1 == c.(pc := |o0.b|, stk := c.stk + [|Jump(o, CallRel, Prog(slot)).b|])
  {
    hide Within, Reaches, Good, Grows, Mirrors, Linked, Body, SkipHeader, Jump, PlacedAt, HolderOk, SoundProgram,
         ProgramCode;
    PlacementLabels(x, slot, o0);
    StepJump(x, o, CallRel, Prog(slot), c);
    c1 := Effect(CallRel, c, |Jump(o, CallRel, Prog(slot)).b|, |o0.b|);
    LiveMoves(x.env, s, c, c1);
  }

  lemma TrapAfterCall(x: Ctx, st: State, c: Cpu, c1: Cpu, c': Cpu)
    requires Trapped(x, st, c1, c') && c1.r14 == c.r14 && 0 <= c.r14 <= |c.stk| && c1.stk[..c.r14] == c.stk[..c.r14]
    ensures Trapped(x, st, c, c')
  {
  }

  /** From its first instruction, a program's code runs to the return address
      on the stack, whether the walk fell off the end or returned. */
  lemma {:induction false} SimProgram(x: Ctx, slot: int, o0: Obj, s: State, c: Cpu) returns (c': Cpu)
    requires Ready(x) && PlacedAt(x, slot, o0) && Live(x.env, s, c) && c.pc == |o0.b|
    requires 0 <= c.r14 < |c.stk| && s.steps <= x.env.maxSteps
    requires Finished(CallSlot(x.env, slot, s))
    ensures Reaches(x.img, c, c')
    ensures var r := CallSlot(x.env, slot, s);
            if r.1.Refused? then Trapped(x, r.0, c, c')
            else r.1.Fall? && Live(x.env, r.0, c') && c'.pc == c.stk[|c.stk| - 1] && c'.stk == c.stk[..|c.stk| - 1]
                 && c'.r14 == c.r14
    decreases Remaining(x.env, s), 1
  {
    hide Within, Reaches, Good, Grows, Mirrors, Linked, Body, Sound, Exec, SkipHeader, PlacedAt, Emit, VerbArg,
         HolderOk;
    PlacementLabels(x, slot, o0);
    assert slot in x.env.programs by { PlacedProgram(x, slot, o0); }
    var toks := x.env.programs[slot];
    var h := SkipHeader(toks);
    var o1 := Mark(o0, Prog(slot));
    HeaderSkipped(slot, toks);
    HeaderWalked(x.env, slot, toks, s);
    TickLive(x.env, s, c);
    var o2 := Body(toks, h, |toks|, o1, []).value.0;
    c' := SimExec(x, toks, h, |toks|, o1, [], true, Tick(s), c);
    var r := Exec(x.env, toks, h, |toks|, Tick(s));
    if r.1.Fall? {
      var c1 := c';
      StepEmit(x, o2, Ret, c1);
      c' := Effect(Ret, c1, |Emit(o2, Ret).b|, |Emit(o2, Ret).b|);
      LiveMoves(x.env, r.0, c1, c');
      ReachesTrans(x.img, c, c1, c');
    }
  }

  lemma PlacedProgram(x: Ctx, slot: int, o: Obj)
    requires PlacedAt(x, slot, o)
    ensures slot in x.env.programs
  {
  }

  // ----- LOOP -----

  lemma LoopPlacement(x: Ctx, toks: seq<Token>, p: nat, hi: nat, o: Obj, loops: seq<(Label, Label)>)
    requires hi <= |toks| && Good(o) && VerbCode(LOOP, 0, toks, p, hi, o, loops).Some?
    requires Within(VerbCode(LOOP, 0, toks, p, hi, o, loops).value.0, x.obj)
    ensures Match(toks, p, |toks|).Some?
    ensures var m := Match(toks, p, |toks|).value;
            var top, brk := Local(o.n + 1), Local(o.n + 2);
            var o1 := Mark(o.(n := o.n + 2), top);
            var r := Body(toks, p + 1, m, o1, loops + [(top, brk)]);
            && Good(o1) && o1.b == o.b && r.Some?
            && Within(Jump(r.value.0, Jmp, top), x.obj) && Within(r.value.0, x.obj)
            && top in x.obj.labels && x.obj.labels[top] == |o.b|
            && brk in x.obj.labels && x.obj.labels[brk] == |VerbCode(LOOP, 0, toks, p, hi, o, loops).value.0.b|
  {
    hide Good, Grows, Body, Match, VerbCode, Within, Jump;
    LoopIs(toks, p, hi, o, loops);
    var n := o.n;
    var m := Match(toks, p, |toks|).value;
    var top, brk := Local(n + 1), Local(n + 2);
    FreshLabel(o, n + 1);
    FreshLabel(o, n + 2);
    var o0 := o.(n := n + 2);
    BumpGood(o, 2);
    MarkGood(n, o0, n + 1);
    var o1 := Mark(o0, top);
    BodyGood(toks, p + 1, m, o1, loops + [(top, brk)]);
    var o2 := Body(toks, p + 1, m, o1, loops + [(top, brk)]).value.0;
    GrowsKeeps(o1, o2, n + 2);
    JumpGood(n, o2, Jmp, top);
    JumpKeeps(o2, Jmp, top);
    var o3 := Jump(o2, Jmp, top);
    MarkGood(n, o3, n + 2);
    GrowsWithin(n, o3, Mark(o3, brk), x.obj);
    JumpWithin(o2, Jmp, top, x.obj);
    GrowsWithin(n + 2, o1, o2, x.obj);
    LabelWithin(o1, x.obj, top);
    LabelWithin(Mark(o3, brk), x.obj, brk);
  }

  lemma {:induction false} SimLoopVerb(x: Ctx, toks: seq<Token>, p: nat, hi: nat, o: Obj, loops: seq<(Label, Label)>,
      s: State, c: Cpu)
    returns (c': Cpu)
    requires p < hi <= |toks| && Closed(toks, hi) && toks[p] == LPAREN && Match(toks, p, hi).Some?
    requires Sound(toks, p + 1, Match(toks, p, hi).value, true, false)
    requires Starts(x, o, s, c) && VerbCode(LOOP, 0, toks, p, hi, o, loops).Some?
    requires Within(VerbCode(LOOP, 0, toks, p, hi, o, loops).value.0, x.obj)
    requires Finished(Loop(x.env, toks, p + 1, Match(toks, p, hi).value, s))
    ensures Reaches(x.img, c, c')
    ensures Ends(x, |VerbCode(LOOP, 0, toks, p, hi, o, loops).value.0.b|, loops, c,
            Loop(x.env, toks, p + 1, Match(toks, p, hi).value, s), c')
    decreases Remaining(x.env, s), 2
  {
    hide Within, Reaches, Good, Grows, Mirrors, Linked, Body, Sound, Exec, Loop, Match, Jump;
    MatchMono(toks, p, hi, 0);
    LoopPlacement(x, toks, p, hi, o, loops);
    var m := Match(toks, p, hi).value;
    var top, brk := Local(o.n + 1), Local(o.n + 2);
    var o1 := Mark(o.(n := o.n + 2), top);
    c' := SimLoop(x, toks, p + 1, m, o1, loops, top, brk, s, c);
    LoopEnds(x, |VerbCode(LOOP, 0, toks, p, hi, o, loops).value.0.b|, loops, brk, c, Loop(x.env, toks, p + 1, m, s),
        c');
  }

  /** How a LOOP ends: never by an escaping BREAK; where its walk falls, the
      code stands at the exit label. */
  ghost predicate EndsLoop(x: Ctx, brk: Label, c: Cpu, r: (State, Outcome), c': Cpu) {
    brk in x.obj.labels && !r.1.Broke? && Ends(x, x.obj.labels[brk], [], c, r, c')
  }

  lemma LoopEnds(x: Ctx, at: nat, loops: seq<(Label, Label)>, brk: Label, c: Cpu, r: (State, Outcome), c': Cpu)
    requires EndsLoop(x, brk, c, r, c') && x.obj.labels[brk] == at
    ensures Ends(x, at, loops, c, r, c')
  {
  }

  lemma {:induction false} SimLoop(x: Ctx, toks: seq<Token>, lo: nat, m: nat, o1: Obj, loops: seq<(Label, Label)>,
      top: Label, brk: Label, st: State, c: Cpu)
    returns (c': Cpu)
    requires m < |toks| && toks[m] == RPAREN && Sound(toks, lo, m, true, false)
    requires Starts(x, o1, st, c) && Body(toks, lo, m, o1, loops + [(top, brk)]).Some?
    requires Within(Jump(Body(toks, lo, m, o1, loops + [(top, brk)]).value.0, Jmp, top), x.obj)
    requires top in x.obj.labels && x.obj.labels[top] == |o1.b| && brk in x.obj.labels
    requires Finished(Loop(x.env, toks, lo, m, st))
    ensures Reaches(x.img, c, c')
    ensures EndsLoop(x, brk, c, Loop(x.env, toks, lo, m, st), c')
    decreases Remaining(x.env, st), 1
  {
    hide Within, Reaches, Good, Grows, Mirrors, Linked, Body, Sound, Exec, Jump, HolderOk, SoundProgram, PlacedAt, Live;
    var s := Tick(st);
    var inner := loops + [(top, brk)];
    var o2 := Body(toks, lo, m, o1, inner).value.0;
    JumpWithin(o2, Jmp, top, x.obj);
    TickLive(x.env, st, c);
    var r := Exec(x.env, toks, lo, m, s);
    assert !r.1.Failed?;
    ExecConfined(x.env, toks, lo, m, s);
    if r.1.Fall? {
      LoopConfined(x.env, toks, lo, m, r.0);
    }
    c' := SimExec(x, toks, lo, m, o1, inner, false, s, c);
    if r.1.Fall? {
      var c1 := c';
      var c2 := JumpBack(x, o2, top, r.0, c1);
      c' := SimLoop(x, toks, lo, m, o1, loops, top, brk, r.0, c2);
      LoopEndsAfter(x, brk, c, c2, Loop(x.env, toks, lo, m, r.0), c');
      ReachesTrans(x.img, c, c1, c2);
      ReachesTrans(x.img, c, c2, c');
    }
  }

  lemma JumpBack(x: Ctx, o: Obj, top: Label, s: State, c: Cpu) returns (c': Cpu)
    requires Linked(x.obj, x.img) && Within(Jump(o, Jmp, top), x.obj) && c.pc == |o.b| && Live(x.env, s, c)
    ensures Reaches(x.img, c, c') && Live(x.env, s, c') && Frame(c, c')
    ensures top in x.obj.labels && c'.pc == x.obj.labels[top]
  {
    hide Within, Reaches, Mirrors, Linked, Jump;
    StepJump(x, o, Jmp, top, c);
    c' := Effect(Jmp, c, |Jump(o, Jmp, top).b|, x.obj.labels[top]);
    LiveMoves(x.env, s, c, c');
  }

  lemma LoopEndsAfter(x: Ctx, brk: Label, c: Cpu, c1: Cpu, r: (State, Outcome), c': Cpu)
    requires EndsLoop(x, brk, c1, r, c') && Frame(c, c1)
    ensures EndsLoop(x, brk, c, r, c')
  {
  }

  // ----- IF -----

  /** Arm k of an IF in progress: its label is placed where ok ends, then come
      its body, when it has one, and the jump to the end. */
  ghost predicate ArmAt(x: Ctx, toks: seq<Token>, regions: seq<(nat, nat)>, k: nat, l: nat,
      loops: seq<(Label, Label)>, ok: Obj)
    requires k < |regions| ==> regions[k].0 <= regions[k].1 < |toks|
  {
    var o1 := Mark(ok, Local(l + 2 + k));
    var o2 := if k < |regions| then ArmCode(toks, regions[k], o1, loops) else Some(o1);
    && Good(o1) && Local(l + 2 + k) in x.obj.labels && x.obj.labels[Local(l + 2 + k)] == |ok.b|
    && o2.Some? && Within(o2.value, x.obj) && Within(Jump(o2.value, Jmp, Local(l + 1)), x.obj)
  }

  lemma {:induction false} ArmPlacement(x: Ctx, toks: seq<Token>, i: nat, regions: seq<(nat, nat)>, idx: nat, l: nat,
      o: Obj, loops: seq<(Label, Label)>, k: nat)
    returns (ok: Obj)
    requires idx <= k < 3 && forall a :: a in regions ==> i < a.0 <= a.1 < |toks|
    requires Good(o) && l + 4 <= o.n
    requires Local(l + 1) !in o.labels && forall j: nat :: l + 2 + idx <= j <= l + 4 ==> Local(j) !in o.labels
    requires ArmsCode(toks, i, regions, idx, l, o, loops).Some?
    requires Within(ArmsCode(toks, i, regions, idx, l, o, loops).value, x.obj)
    ensures k < |regions| ==> regions[k].0 <= regions[k].1 < |toks|
    ensures ArmAt(x, toks, regions, k, l, loops, ok)
    decreases 3 - idx
  {
    hide Good, Within, ArmsCode, ArmAt;
    if k == idx {
      ok := o;
      ArmPlaced(x, toks, i, regions, k, l, o, loops);
    } else {
      var o3 := ArmGood(toks, i, regions, idx, l, o, loops);
      ok := ArmPlacement(x, toks, i, regions, idx + 1, l, o3, loops, k);
    }
  }

  lemma ArmPlaced(x: Ctx, toks: seq<Token>, i: nat, regions: seq<(nat, nat)>, k: nat, l: nat, o: Obj,
      loops: seq<(Label, Label)>)
    requires k < 3 && forall a :: a in regions ==> i < a.0 <= a.1 < |toks|
    requires Good(o) && l + 4 <= o.n
    requires Local(l + 1) !in o.labels && forall j: nat :: l + 2 + k <= j <= l + 4 ==> Local(j) !in o.labels
    requires ArmsCode(toks, i, regions, k, l, o, loops).Some?
    requires Within(ArmsCode(toks, i, regions, k, l, o, loops).value, x.obj)
    ensures k < |regions| ==> regions[k].0 <= regions[k].1 < |toks|
    ensures ArmAt(x, toks, regions, k, l, loops, o)
  {
    hide Good, Grows, Body, Within, Jump;
    MarkGood(l, o, l + 2 + k);
    var o1 := Mark(o, Local(l + 2 + k));
    GrowsSelf(o1.n, o1);
    var o2 := o1;
    if k < |regions| {
      assert regions[k] in regions;
      o2 := ArmCode(toks, regions[k], o1, loops).value;
      BodyGood(toks, regions[k].0, regions[k].1, o1, loops);
    }
    NoSmallLabels(l, o1, o2);
    JumpGood(l, o2, Jmp, Local(l + 1));
    JumpKeeps(o2, Jmp, Local(l + 1));
    var o3 := Jump(o2, Jmp, Local(l + 1));
    ArmsGood(toks, i, regions, k + 1, l, o3, loops);
    GrowsWithin(l, o3, ArmsCode(toks, i, regions, k + 1, l, o3, loops).value, x.obj);
    JumpWithin(o2, Jmp, Local(l + 1), x.obj);
    GrowsWithin(o1.n, o1, o2, x.obj);
    LabelWithin(o1, x.obj, Local(l + 2 + k));
  }

  lemma IfPlacement(x: Ctx, toks: seq<Token>, p: nat, hi: nat, o: Obj, loops: seq<(Label, Label)>, k: nat)
      returns (ok: Obj)
    requires hi <= |toks| && Good(o) && VerbCode(IF, 0, toks, p, hi, o, loops).Some? && k < 3
    requires Within(VerbCode(IF, 0, toks, p, hi, o, loops).value.0, x.obj)
    ensures Arms(toks, p, hi, |toks|, 3).Some?
    ensures var regions := Arms(toks, p, hi, |toks|, 3).value.0;
            && (k < |regions| ==> regions[k].0 <= regions[k].1 < |toks|)
            && ArmAt(x, toks, regions, k, o.n, loops, ok)
    ensures Within(IfHead(o), x.obj)
    ensures Local(o.n + 1) in x.obj.labels
            && x.obj.labels[Local(o.n + 1)] == |VerbCode(IF, 0, toks, p, hi, o, loops).value.0.b|
  {
    hide Good, Grows, Arms, ArmsCode, IfHead, Within;
    IfHeadGood(o);
    var regions := Arms(toks, p, hi, |toks|, 3).value.0;
    forall j: nat | j > o.n ensures Local(j) !in o.labels {
      FreshLabel(o, j);
    }
    var o1 := IfHead(o);
    ArmsGood(toks, p, regions, 0, o.n, o1, loops);
    var o2 := ArmsCode(toks, p, regions, 0, o.n, o1, loops).value;
    MarkGood(o.n, o2, o.n + 1);
    var o3 := Mark(o2, Local(o.n + 1));
    GrowsWithin(o.n, o2, o3, x.obj);
    GrowsWithin(o.n, o1, o2, x.obj);
    LabelWithin(o3, x.obj, Local(o.n + 1));
    ok := ArmPlacement(x, toks, p, regions, 0, o.n, o1, loops, k);
  }

  lemma {:induction false} SimIf(x: Ctx, toks: seq<Token>, p: nat, hi: nat, o: Obj, loops: seq<(Label, Label)>,
      s: State, c: Cpu)
    returns (c': Cpu)
    requires p <= hi <= |toks| && Closed(toks, hi)
    requires SoundVerb(IF, 0, toks, p, hi, loops != []).Some?
    requires Starts(x, o, s, c) && VerbCode(IF, 0, toks, p, hi, o, loops).Some?
    requires Within(VerbCode(IF, 0, toks, p, hi, o, loops).value.0, x.obj)
    requires Finished(Dispatch(x.env, IF, 0, toks, p, hi, s))
    ensures Reaches(x.img, c, c')
    ensures Ends(x, |VerbCode(IF, 0, toks, p, hi, o, loops).value.0.b|, loops, c,
            Dispatch(x.env, IF, 0, toks, p, hi, s), c')
    decreases Remaining(x.env, s), 2
  {
    hide Within, Reaches, Good, Grows, Mirrors, Linked, Body, Sound, Exec, Arms, ArmsCode, IfHead, Jump, ArmAt;
    ArmsMono(toks, p, hi, 3);
    var k := ArmIndex(Top(s));
    var regions := Arms(toks, p, hi, hi, 3).value.0;
    var at := |VerbCode(IF, 0, toks, p, hi, o, loops).value.0.b|;
    var ok := IfPlacement(x, toks, p, hi, o, loops, k);
    var c1 := IfHeadRuns(x, o, s, c);
    ArmLabel(x, toks, regions, k, o.n, loops, ok);
    c' := SimArm(x, toks, regions, k, o.n, loops, ok, Pop(s), c1);
    EndsAfter(x, at, loops, c, c1, ArmWalk(x.env, toks, regions, k, Pop(s)), c');
    ReachesTrans(x.img, c, c1, c');
    EndsSame(x, at, loops, c, ArmWalk(x.env, toks, regions, k, Pop(s)), Dispatch(x.env, IF, 0, toks, p, hi, s), c');
  }

  lemma ArmLabel(x: Ctx, toks: seq<Token>, regions: seq<(nat, nat)>, k: nat, l: nat, loops: seq<(Label, Label)>,
      ok: Obj)
    requires k < |regions| ==> regions[k].0 <= regions[k].1 < |toks|
    requires ArmAt(x, toks, regions, k, l, loops, ok)
    ensures Local(l + 2 + k) in x.obj.labels && x.obj.labels[Local(l + 2 + k)] == |ok.b|
  {
  }

  lemma EndsSame(x: Ctx, at: nat, loops: seq<(Label, Label)>, c: Cpu, r: (State, Outcome), r': (State, Outcome),
      c': Cpu)
    requires Ends(x, at, loops, c, r, c') && r.0 == r'.0 && (r.1 == r'.1 || (r.1.Fall? && r'.1.Fall?))
    ensures Ends(x, at, loops, c, r', c')
  {
  }

  function ArmWalk(env: Env, toks: seq<Token>, regions: seq<(nat, nat)>, k: nat, s: State): (State, Outcome)
    requires k < |regions| ==> regions[k].0 <= regions[k].1 < |toks|
  {
    if k < |regions| then Exec(env, toks, regions[k].0, regions[k].1, s) else (s, Fall(0))
  }

  lemma {:induction false} SimArm(x: Ctx, toks: seq<Token>, regions: seq<(nat, nat)>, k: nat, l: nat,
      loops: seq<(Label, Label)>, ok: Obj, s: State, c: Cpu)
    returns (c': Cpu)
    requires k < |regions| ==> regions[k].0 <= regions[k].1 < |toks| && toks[regions[k].1] == RPAREN
    requires k < |regions| ==> Sound(toks, regions[k].0, regions[k].1, loops != [], false)
    requires ArmAt(x, toks, regions, k, l, loops, ok) && Local(l + 1) in x.obj.labels
    requires Ready(x) && Live(x.env, s, c) && c.pc == |ok.b| && 0 <= c.r14 < |c.stk| && s.steps <= x.env.maxSteps
    requires Finished(ArmWalk(x.env, toks, regions, k, s))
    ensures Reaches(x.img, c, c')
    ensures Ends(x, x.obj.labels[Local(l + 1)], loops, c, ArmWalk(x.env, toks, regions, k, s), c')
    decreases Remaining(x.env, s), 1
  {
    hide Within, Reaches, Good, Grows, Mirrors, Linked, Body, Sound, Exec, Jump;
    var o1 := Mark(ok, Local(l + 2 + k));
    var o2 := o1;
    c' := c;
    ReachesSelf(x.img, c);
    if k < |regions| {
      o2 := ArmCode(toks, regions[k], o1, loops).value;
      c' := SimExec(x, toks, regions[k].0, regions[k].1, o1, loops, false, s, c);
    }
    var r := ArmWalk(x.env, toks, regions, k, s);
    if r.1.Fall? {
      var c1 := c';
      StepJump(x, o2, Jmp, Local(l + 1), c1);
      c' := Effect(Jmp, c1, |Jump(o2, Jmp, Local(l + 1)).b|, x.obj.labels[Local(l + 1)]);
      LiveMoves(x.env, r.0, c1, c');
      ReachesTrans(x.img, c, c1, c');
    } else {
      EndsElsewhere(x, |o2.b|, x.obj.labels[Local(l + 1)], loops, c, r, c');
    }
  }

  lemma EndsElsewhere(x: Ctx, at: nat, at': nat, loops: seq<(Label, Label)>, c: Cpu, r: (State, Outcome), c': Cpu)
    requires Ends(x, at, loops, c, r, c') && !r.1.Fall?
    ensures Ends(x, at', loops, c, r, c')
  {
  }
}
