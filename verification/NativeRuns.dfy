/** Whole runs: compile, link, load the arena, call the image. */
module NativeRuns {
  import opened Lexicon
  import opened Interp
  import opened Native
  import opened Backend
  import opened Linking
  import opened Domain
  import opened Arena
  import opened BackendCorrect

  /** The dictionary the compiler was given is the one the walker has loaded. */
  ghost predicate Loads(progs: Source, programs: map<int, seq<Token>>) {
    && (forall k :: 0 <= k < |progs| ==> progs[k].0 in programs && programs[progs[k].0] == progs[k].1)
    && (forall slot :: slot in programs ==> exists k :: 0 <= k < |progs| && progs[k].0 == slot)
    && (forall j, k :: 0 <= j < k < |progs| ==> progs[j].0 != progs[k].0)
  }

  /** What the runner is given fits the arena: slots and grants are for cells it
      has, and every word written is a 64-bit word. */
  predicate ArenaOk(env: Env, slots: map<int, int>) {
    && HolderFits(env)
    && (forall s :: s in slots ==> 0 <= s < NSLOT && InWord(slots[s]))
    && (forall s :: s in env.grants ==> 0 <= s < NSLOT && InWord(env.grants[s] + 1))
  }

  /** The zeroed arena with slots, grant words and holder filled in. */
  function ArenaFor(env: Env, slots: map<int, int>): seq<int> {
    seq(TOP_CELL, k =>
      if 0 <= k < NSLOT then (if k in slots then slots[k] else 0)
      else if NSLOT <= k < 2 * NSLOT then GrantWord(env, k - NSLOT)
      else if k == HOLDER_CELL then env.holder
      else 0)
  }

  /** Entering the image: the arena's address in rdi, the caller's address on
      the call stack, the other registers as the caller left them. */
  function Enter(mem: seq<int>, rax: int, rbx: int, rcx: int, r13: int, r14: int, r15: int): Cpu {
    Cpu(0, rax, rbx, rcx, r13, r14, r15, 0, 0, [EXIT], mem)
  }

  function Fresh(slots: map<int, int>, last: int): State {
    State([], [], GridOf(slots), 0, true, last)
  }

  lemma ArenaLoaded(env: Env, slots: map<int, int>)
    ensures var m := ArenaFor(env, slots);
            StackAt(m, []) && OutputAt(m, []) && SlotsAt(m, GridOf(slots)) && GatesAt(m, env)
  {
    var m := ArenaFor(env, slots);
    forall s | 0 <= s < NSLOT ensures m[s] == SlotWord(GridOf(slots), s) {
      if s in slots {
        StoredReadsBack(slots[s]);
      }
    }
  }

  // ----- where the programs' code lies -----

  ghost predicate Placement(p: (int, seq<Token>), o: Obj, f: Obj) {
    Good(o) && Prog(p.0) !in o.labels && ProgramCode(p, o).Some? && Within(ProgramCode(p, o).value, f)
  }

  ghost predicate PlacedIn(p: (int, seq<Token>), f: Obj) {
    exists o :: Placement(p, o, f)
  }

  lemma MarkProgGood(o: Obj, slot: int)
    requires Good(o) && Prog(slot) !in o.labels
    ensures Good(Mark(o, Prog(slot))) && Within(o, Mark(o, Prog(slot)))
  {
  }

  lemma ProgramCodeGood(p: (int, seq<Token>), o: Obj)
    requires Good(o) && Prog(p.0) !in o.labels && ProgramCode(p, o).Some?
    ensures var o' := ProgramCode(p, o).value;
            Good(o') && Within(o, o') && forall s :: Prog(s) in o'.labels ==> s == p.0 || Prog(s) in o.labels
  {
    hide Good, Body;
    MarkProgGood(o, p.0);
    var o1 := Mark(o, Prog(p.0));
    BodyGood(p.1, SkipHeader(p.1), |p.1|, o1, []);
    var o2 := Body(p.1, SkipHeader(p.1), |p.1|, o1, []).value.0;
    EmitGood(o2.n, o2, Ret);
    var o3 := Emit(o2, Ret);
    GrowsWithin(o2.n, o2, o3, o3) by { WithinSelf(o3); }
    GrowsWithin(o1.n, o1, o2, o3);
    WithinTrans(o, o1, o3);
  }

  lemma WithinSelf(o: Obj)
    ensures Within(o, o)
  {
  }

  lemma {:induction false} ProgramsGood(progs: Source, o: Obj)
    requires Good(o) && ProgramsCode(progs, o).Some?
    requires forall k :: 0 <= k < |progs| ==> Prog(progs[k].0) !in o.labels
    requires forall j, k :: 0 <= j < k < |progs| ==> progs[j].0 != progs[k].0
    ensures var f := ProgramsCode(progs, o).value;
            Good(f) && Within(o, f) && forall k :: 0 <= k < |progs| ==> PlacedIn(progs[k], f)
    decreases |progs|
  {
    hide Good, ProgramCode, Within;
    if progs == [] {
      WithinSelf(o);
    } else {
      ProgramCodeGood(progs[0], o);
      var o1 := ProgramCode(progs[0], o).value;
      var rest := progs[1..];
      assert forall k :: 0 <= k < |rest| ==> rest[k] == progs[k + 1];
      ProgramsGood(rest, o1);
      var f := ProgramsCode(rest, o1).value;
      WithinTrans(o, o1, f);
      assert Placement(progs[0], o, f);
      forall k | 0 <= k < |progs| ensures PlacedIn(progs[k], f) {
        if k > 0 {
          assert rest[k - 1] == progs[k];
        }
      }
    }
  }

  lemma NewGood()
    ensures Good(NEW_OBJ)
  {
  }

  lemma EntrySavesGood()
    ensures Good(EntrySaves()) && EntrySaves().labels == map[] && |EntrySaves().b| == 6
  {
    hide Good;
    NewGood();
    EmitGood(0, NEW_OBJ, PushReg(R15));
    EmitGood(0, Emit(NEW_OBJ, PushReg(R15)), PushReg(R14));
    EmitGood(0, Emit(Emit(NEW_OBJ, PushReg(R15)), PushReg(R14)), PushReg(R13));
  }

  lemma PrologueGood(entry: int)
    ensures Good(Prologue(entry)) && Prologue(entry).labels == map[]
  {
    hide Good, Emit, Jump;
    var o := EntrySaves();
    EntrySavesGood();
    EmitGood(0, o, MovR15Rdi);
    var o1 := Emit(o, MovR15Rdi);
    EmitGood(0, o1, MovR14Rsp);
    var o2 := Emit(o1, MovR14Rsp);
    EmitGood(0, o2, LeaR13(OFF_VTOP));
    var o3 := Emit(o2, LeaR13(OFF_VTOP));
    JumpGood(0, o3, CallRel, Prog(entry));
    SameLabels(o, entry);
  }

  lemma SameLabels(o: Obj, entry: int)
    ensures Jump(Emit(Emit(Emit(o, MovR15Rdi), MovR14Rsp), LeaR13(OFF_VTOP)), CallRel, Prog(entry)).labels == o.labels
  {
  }

  lemma ClosingGood(o: Obj)
    requires Good(o) && o.labels == map[]
    ensures Good(Closing(o)) && Closing(o).labels == map[Epilogue := |o.b|]
    ensures Within(o, Closing(o))
  {
    hide Good, Within;
    var o0 := Mark(o, Epilogue);
    assert Good(o0) && Within(o, o0) by { MarkEpilogue(o); }
    EmitGood(0, o0, PopReg(R13));
    var o1 := Emit(o0, PopReg(R13));
    EmitGood(0, o1, PopReg(R14));
    var o2 := Emit(o1, PopReg(R14));
    EmitGood(0, o2, PopReg(R15));
    var o3 := Emit(o2, PopReg(R15));
    EmitGood(0, o3, Ret);
    var o4 := Emit(o3, Ret);
    WithinSelf(o4);
    EmitWithin(o3, Ret, o4);
    EmitWithin(o2, PopReg(R15), o4);
    EmitWithin(o1, PopReg(R14), o4);
    EmitWithin(o0, PopReg(R13), o4);
    WithinTrans(o, o0, o4);
  }

  lemma MarkEpilogue(o: Obj)
    requires Good(o) && o.labels == map[]
    ensures Good(Mark(o, Epilogue)) && Within(o, Mark(o, Epilogue))
  {
  }

  /** Compiled programs are ready to be run against the walker. */
  lemma CompiledReady(progs: Source, entry: int, env: Env) returns (x: Ctx)
    requires Loads(progs, env.programs) && env.attached && HolderOk(env)
    requires forall k :: 0 <= k < |progs| ==> SoundProgram(progs[k].0, progs[k].1)
    requires CompileAll(progs, entry).Some? && |CompileAll(progs, entry).value| < 0x8000_0000
    ensures x.env == env && x.img == CompileAll(progs, entry).value && Ready(x)
    ensures Within(Closing(Prologue(entry)), x.obj)
  {
    hide Good, Within, Linked, SoundProgram, ProgramsCode, Resolve, Prologue, Closing;
    PrologueGood(entry);
    var o := Closing(Prologue(entry));
    ClosingGood(Prologue(entry));
    ProgramsGood(progs, o);
    var f := ProgramsCode(progs, o).value;
    x := Ctx(env, f, CompileAll(progs, entry).value);
    ObjectLinks(progs, entry);
    LabelWithin(o, f, Epilogue);
    forall slot | slot in env.programs
      ensures SoundProgram(slot, env.programs[slot]) && exists o :: PlacedAt(x, slot, o)
    {
      var k :| 0 <= k < |progs| && progs[k].0 == slot;
      assert progs[k] == (slot, env.programs[slot]);
      var ok :| Placement(progs[k], ok, f);
      assert PlacedAt(x, slot, ok);
    }
  }

  // ----- entry and exit -----

  lemma EntryRuns(x: Ctx, entry: int, c: Cpu) returns (c': Cpu)
    requires Linked(x.obj, x.img) && Within(Prologue(entry), x.obj)
    requires c.pc == 0 && c.rdi == 0 && c.stk == [EXIT]
    ensures Prog(entry) in x.obj.labels
    ensures Reaches(x.img, c, c')
    ensures c' == c.(pc := x.obj.labels[Prog(entry)], r13 := OFF_VTOP, r14 := 4, r15 := 0,
                     stk := [EXIT, c.r15, c.r14, c.r13, |Prologue(entry).b|])
  {
    hide Linked, Within, Reaches, Emit, Jump, EntrySaves;
    var o := EntrySaves();
    var o1 := Emit(o, MovR15Rdi);
    var o2 := Emit(o1, MovR14Rsp);
    var o3 := Emit(o2, LeaR13(OFF_VTOP));
    JumpWithin(o3, CallRel, Prog(entry), x.obj);
    EmitWithin(o2, LeaR13(OFF_VTOP), x.obj);
    EmitWithin(o1, MovR14Rsp, x.obj);
    EmitWithin(o, MovR15Rdi, x.obj);
    var c0 := SavesRun(x, c);
    var c3 := SetupRuns(x, o, c0);
    StepJump(x, o3, CallRel, Prog(entry), c3);
    c' := Effect(CallRel, c3, |Prologue(entry).b|, x.obj.labels[Prog(entry)]);
    assert c'.stk == [EXIT, c.r15, c.r14, c.r13, |Prologue(entry).b|];
    ReachesTrans(x.img, c, c0, c3);
    ReachesTrans(x.img, c, c3, c');
  }

  lemma SetupRuns(x: Ctx, o: Obj, c: Cpu) returns (c': Cpu)
    requires var o1 := Emit(o, MovR15Rdi);
             var o2 := Emit(o1, MovR14Rsp);
             Within(o1, x.obj) && Within(o2, x.obj) && Within(Emit(o2, LeaR13(OFF_VTOP)), x.obj)
    requires Linked(x.obj, x.img) && c.pc == |o.b| && c.rdi == 0
    ensures Reaches(x.img, c, c')
    ensures c' == c.(pc := |Emit(Emit(Emit(o, MovR15Rdi), MovR14Rsp), LeaR13(OFF_VTOP)).b|,
                     r13 := OFF_VTOP, r14 := |c.stk|, r15 := 0)
  {
    hide Linked, Within, Reaches, Emit, Int32;
    Disp(OFF_VTOP);
    var o1 := Emit(o, MovR15Rdi);
    var o2 := Emit(o1, MovR14Rsp);
    var o3 := Emit(o2, LeaR13(OFF_VTOP));
    StepEmit(x, o, MovR15Rdi, c);
    var c1 := c.(pc := |o1.b|, r15 := 0);
    assert Effect(MovR15Rdi, c, |o1.b|, |o1.b|) == c1;
    StepEmit(x, o1, MovR14Rsp, c1);
    var c2 := c1.(pc := |o2.b|, r14 := |c.stk|);
    assert Effect(MovR14Rsp, c1, |o2.b|, |o2.b|) == c2;
    StepEmit(x, o2, LeaR13(OFF_VTOP), c2);
    c' := Effect(LeaR13(OFF_VTOP), c2, |o3.b|, |o3.b|);
    ReachesTrans(x.img, c, c1, c2);
    ReachesTrans(x.img, c, c2, c');
  }

  lemma SavesRun(x: Ctx, c: Cpu) returns (c': Cpu)
    requires Linked(x.obj, x.img) && Within(EntrySaves(), x.obj) && c.pc == 0 && c.stk == [EXIT]
    ensures Reaches(x.img, c, c')
    ensures c' == c.(pc := |EntrySaves().b|, stk := [EXIT, c.r15, c.r14, c.r13])
  {
    hide Linked, Within, Reaches, Emit;
    var o1 := Emit(NEW_OBJ, PushReg(R15));
    var o2 := Emit(o1, PushReg(R14));
    var o3 := Emit(o2, PushReg(R13));
    EmitWithin(o2, PushReg(R13), x.obj);
    EmitWithin(o1, PushReg(R14), x.obj);
    StepEmit(x, NEW_OBJ, PushReg(R15), c);
    var c1 := c.(pc := |o1.b|, stk := [EXIT, c.r15]);
    assert Effect(PushReg(R15), c, |o1.b|, |o1.b|) == c1;
    StepEmit(x, o1, PushReg(R14), c1);
    var c2 := c1.(pc := |o2.b|, stk := [EXIT, c.r15, c.r14]);
    assert Effect(PushReg(R14), c1, |o2.b|, |o2.b|) == c2;
    StepEmit(x, o2, PushReg(R13), c2);
    c' := Effect(PushReg(R13), c2, |o3.b|, |o3.b|);
    assert c'.stk == [EXIT, c.r15, c.r14, c.r13];
    ReachesTrans(x.img, c, c1, c2);
    ReachesTrans(x.img, c, c2, c');
  }

  lemma PopRuns(x: Ctx, o: Obj, r: Saved, c: Cpu, stk: seq<int>, v: int)
    requires Linked(x.obj, x.img) && Within(Emit(o, PopReg(r)), x.obj)
    requires c.pc == |o.b| && c.stk == stk + [v]
    ensures Reaches(x.img, c, Restore(c.(pc := |Emit(o, PopReg(r)).b|, stk := stk), r, v))
  {
    hide Linked, Within, Reaches, Emit;
    StepEmit(x, o, PopReg(r), c);
    assert c.stk[..|c.stk| - 1] == stk;
  }

  /** The epilogue gives the caller back the three registers it saved and returns to
      it; rbx, which popped values went through, is left as it is. */
  lemma ExitRuns(x: Ctx, o: Obj, c: Cpu, r13: int, r14: int, r15: int) returns (c': Cpu)
    requires Linked(x.obj, x.img) && Within(Closing(o), x.obj)
    requires c.pc == |o.b| && c.stk == [EXIT, r15, r14, r13]
    ensures Reaches(x.img, c, c')
    ensures c' == c.(pc := EXIT, stk := [], r13 := r13, r14 := r14, r15 := r15)
  {
    hide Linked, Within, Reaches, Emit, Effect;
    var o0 := Mark(o, Epilogue);
    var o1 := Emit(o0, PopReg(R13));
    var o2 := Emit(o1, PopReg(R14));
    var o3 := Emit(o2, PopReg(R15));
    EmitWithin(o3, Ret, x.obj);
    EmitWithin(o2, PopReg(R15), x.obj);
    EmitWithin(o1, PopReg(R14), x.obj);
    var c1 := c.(pc := |o1.b|, stk := [EXIT, r15, r14], r13 := r13);
    var c2 := c1.(pc := |o2.b|, stk := [EXIT, r15], r14 := r14);
    var c3 := c2.(pc := |o3.b|, stk := [EXIT], r15 := r15);
    PopRuns(x, o0, R13, c, [EXIT, r15, r14], r13);
    PopRuns(x, o1, R14, c1, [EXIT, r15], r14);
    PopRuns(x, o2, R15, c2, [EXIT], r15);
    c' := RetRuns(x, o3, c3);
    ReachesTrans(x.img, c, c1, c2);
    ReachesTrans(x.img, c, c2, c3);
    ReachesTrans(x.img, c, c3, c');
  }

  lemma RetRuns(x: Ctx, o: Obj, c: Cpu) returns (c': Cpu)
    requires Linked(x.obj, x.img) && Within(Emit(o, Ret), x.obj)
    requires c.pc == |o.b| && c.stk == [EXIT]
    ensures Reaches(x.img, c, c') && c' == c.(pc := EXIT, stk := [])
  {
    hide Linked, Within, Reaches, Emit;
    StepEmit(x, o, Ret, c);
    c' := Effect(Ret, c, |Emit(o, Ret).b|, |Emit(o, Ret).b|);
  }

  // ----- the theorem -----

  /** The caller has r13, r14 and r15 back and nothing is left on the call stack. */
  predicate Exited(c0: Cpu, c: Cpu) {
    c.pc == EXIT && c.stk == [] && c.r13 == c0.r13 && c.r14 == c0.r14 && c.r15 == c0.r15
  }

  /** What the runner reads back from the arena. */
  ghost predicate ReadsBack(mem: seq<int>, st: State) {
    && |mem| == TOP_CELL && mem[COUNT_CELL] == |st.output| <= NOUT
    && mem[OUT_CELL..OUT_CELL + |st.output|] == st.output
    && forall s :: 0 <= s < NSLOT ==> mem[s] == SlotWord(st.grid, s)
  }

  /** How the image, called with the arena, ends when the walker ends as r: it returns
      to its caller with the same output and slots; and its return value is the REFUSED
      sentinel exactly when the walker was refused, or finished with -2^63 as the value
      last pushed or popped. */
  ghost predicate EndsAs(img: seq<Byte>, c0: Cpu, c': Cpu, r: (State, Outcome)) {
    && Reaches(img, c0, c') && Exited(c0, c')
    && ReadsBack(c'.mem, r.0)
    && (r.1.Refused? || r.1.Fall?)
    && (c'.rax == REFUSED <==> r.1.Refused? || r.0.last == REFUSED)
  }

  /** The theorem for grants that the guard reads as the walker does. */
  lemma GrantedAgree(progs: Source, entry: int, env: Env, slots: map<int, int>,
                     rax: int, rbx: int, rcx: int, r13: int, r14: int, r15: int) returns (c': Cpu)
    requires Loads(progs, env.programs) && env.attached && HolderOk(env)
    requires forall k :: 0 <= k < |progs| ==> SoundProgram(progs[k].0, progs[k].1)
    requires CompileAll(progs, entry).Some? && |CompileAll(progs, entry).value| < 0x8000_0000
    requires Finished(CallSlot(env, entry, Fresh(slots, rax)))
    ensures EndsAs(CompileAll(progs, entry).value, Enter(ArenaFor(env, slots), rax, rbx, rcx, r13, r14, r15), c',
                   CallSlot(env, entry, Fresh(slots, rax)))
  {
    hide Within, Reaches, Linked, Good, SoundProgram, Prologue, Closing, CallSlot, StackAt, OutputAt, SlotsAt, GatesAt;
    hide CompileAll, ArenaFor, PlacedAt, ReadsBack;
    var c0 := Enter(ArenaFor(env, slots), rax, rbx, rcx, r13, r14, r15);
    var x := CompiledReady(progs, entry, env);
    var pro := Prologue(entry);
    PrologueGood(entry);
    ClosingGood(pro);
    WithinTrans(pro, Closing(pro), x.obj);
    LabelWithin(Closing(pro), x.obj, Epilogue);
    var c1 := EntryRuns(x, entry, c0);
    ArenaLoaded(env, slots);
    var s0 := Fresh(slots, rax);
    CalledLoaded(env, entry, s0);
    var o0 :| PlacedAt(x, entry, o0);
    PlacementLabels(x, entry, o0);
    var c2 := SimProgram(x, entry, o0, s0, c1);
    assert c1.stk[..4] == [EXIT, r15, r14, r13];
    var st := CallSlot(env, entry, s0).0;
    c' := ExitRuns(x, pro, c2, r13, r14, r15);
    ArenaReadsBack(c2.mem, st);
    ReachesTrans(x.img, c0, c1, c2);
    ReachesTrans(x.img, c0, c2, c');
  }

  /** Compiler correctness. For every set of programs in the domain, every entry, and
      every holder, grants and slot contents that fit the arena: when the walker, with
      the grants as the guard reads them, finishes within some budget, normally or by a
      refused write, without leaving the native ranges, the linked image ends as it
      does. The guard reads the grants as they are for every holder but -1. */
  lemma NativeAgrees(progs: Source, entry: int, env: Env, slots: map<int, int>,
                     rax: int, rbx: int, rcx: int, r13: int, r14: int, r15: int) returns (c': Cpu)
    requires Loads(progs, env.programs) && env.attached && ArenaOk(env, slots)
    requires forall k :: 0 <= k < |progs| ==> SoundProgram(progs[k].0, progs[k].1)
    requires CompileAll(progs, entry).Some? && |CompileAll(progs, entry).value| < 0x8000_0000
    requires Finished(CallSlot(AsRead(env), entry, Fresh(slots, rax)))
    ensures env.holder != -1 ==> AsRead(env) == env
    ensures EndsAs(CompileAll(progs, entry).value, Enter(ArenaFor(env, slots), rax, rbx, rcx, r13, r14, r15), c',
                   CallSlot(AsRead(env), entry, Fresh(slots, rax)))
  {
    hide CallSlot, CompileAll, SoundProgram, ArenaFor, AsRead, EndsAs;
    ReadGrants(env);
    SameArena(env, slots);
    c' := GrantedAgree(progs, entry, AsRead(env), slots, rax, rbx, rcx, r13, r14, r15);
    if env.holder != -1 {
      NotMinusOne(env);
    }
  }

  lemma NotMinusOne(env: Env)
    requires env.holder != -1
    ensures AsRead(env) == env
  {
  }

  lemma SameArena(env: Env, slots: map<int, int>)
    requires HolderFits(env)
    ensures ArenaFor(AsRead(env), slots) == ArenaFor(env, slots)
  {
    ReadGrants(env);
    var a, b := ArenaFor(AsRead(env), slots), ArenaFor(env, slots);
    hide AsRead, GrantWord;
    forall k | 0 <= k < TOP_CELL ensures a[k] == b[k] {
      if NSLOT <= k < 2 * NSLOT {
        assert GrantWord(AsRead(env), k - NSLOT) == GrantWord(env, k - NSLOT);
      }
    }
  }

  lemma ArenaReadsBack(mem: seq<int>, st: State)
    requires OutputAt(mem, st.output) && SlotsAt(mem, st.grid)
    ensures ReadsBack(mem, st)
  {
    hide SlotWord;
    assert forall k :: 0 <= k < |st.output| ==>
      mem[OUT_CELL..OUT_CELL + |st.output|][k] == mem[OUT_CELL + k] == st.output[k];
  }
}
