/** The one holder whom the native code does not hold to his grants. */
module Ungranted {
  import opened Lexicon
  import opened Interp
  import opened Native
  import opened Backend
  import opened Domain
  import opened Arena
  import opened NativeRuns
  import opened Compiles
  import opened Structured
  import opened Sentinel
  import Gates

  /** Stores 5 in slot 3. */
  function WriteBody(): seq<Token> {
    EncodeInteger(5) + VerbArg(STORE, 3)
  }

  // ----- the program is one the backend is for -----

  /** Where the pieces of the body stand. */
  lemma WritePlaces(slot: int, toks: seq<Token>, p: nat, p1: nat, p2: nat)
    requires toks == Program(slot, WriteBody()) && p == |VerbArg(DEF, slot)|
    requires p1 == p + |EncodeInteger(5)| && p2 == p1 + |VerbArg(STORE, 3)|
    ensures Here(toks, p, EncodeInteger(5)) && Here(toks, p1, VerbArg(STORE, 3))
    ensures |toks| == p2 + 1 && toks[p2] == RECORD && VerbArg(DEF, slot) <= toks
  {
    hide EncodeInteger, Here, VerbArg;
    BodyHere(toks, VerbArg(DEF, slot), WriteBody());
    HereSplit(toks, p, EncodeInteger(5), VerbArg(STORE, 3));
  }

  lemma StoreSound(toks: seq<Token>, p: nat, slot: int)
    requires Here(toks, p, VerbArg(STORE, slot)) && 0 <= slot < NSLOT && p < |toks|
    ensures SoundOne(toks, p, |toks|, false) == Some(p + |VerbArg(STORE, slot)|) && toks[p] != RECORD
  {
    hide EncodeInteger, ReadInt, Verb;
    VerbLength(STORE);
    HereSplit(toks, p, Verb(STORE), EncodeInteger(slot));
    VerbHere(toks, p, STORE);
    ReadEncoded(toks, p + 9, |toks|, slot);
  }

  lemma WriteSound(slot: int)
    ensures SoundProgram(slot, Program(slot, WriteBody()))
  {
    hide EncodeInteger, VerbArg, Here, WriteBody, Program, Sound, SoundOne, SoundProgram;
    var toks, p := Program(slot, WriteBody()), |VerbArg(DEF, slot)|;
    var p1 := p + |EncodeInteger(5)|;
    var p2 := p1 + |VerbArg(STORE, 3)|;
    WritePlaces(slot, toks, p, p1, p2);
    NumberSound(toks, p, 5);
    StoreSound(toks, p1, 3);
    SoundEnd(toks, p2);
    SoundStep(toks, p1, p2);
    SoundStep(toks, p, p1);
    SoundFrom(slot, toks);
  }

  /** The program has two verbs, DEF and STORE. */
  lemma WriteCalls(slot: int)
    ensures Callable([(slot, Program(slot, WriteBody()))], slot)
  {
    var toks := Program(slot, WriteBody());
    NumberNoStart(slot);
    NumberNoStart(5);
    NumberNoStart(3);
    hide EncodeInteger;
    var a: seq<Token> := [END, END, END, END] + EncodeInteger(slot) + EncodeInteger(5);
    var b: seq<Token> := [END, END, END, END] + EncodeInteger(3) + [RECORD];
    var four: seq<Token> := [START, START, START, START];
    assert NoStart(a) && NoStart(b);
    assert toks == four + ([DEF] + a) + four + ([STORE] + b);
    TwoVerbs(toks, [DEF] + a, [STORE] + b);
    assert slot in Slots([(slot, toks)]) by {
      assert [(slot, toks)][0].0 == slot;
    }
  }

  /** Four STARTs stand only before the two parts. */
  lemma TwoVerbs(toks: seq<Token>, a: seq<Token>, b: seq<Token>)
    requires NoStart(a) && NoStart(b) && a != [] && b != []
    requires toks == [START, START, START, START] + a + [START, START, START, START] + b
    ensures forall p: nat :: p + 4 < |toks| && IsVerb(toks, p) ==> toks[p + 4] == a[0] || toks[p + 4] == b[0]
  {
    var n := |a|;
    assert toks[4] == a[0] && toks[8 + n] == b[0];
    forall q | 4 <= q < 4 + n || 8 + n <= q < |toks| ensures toks[q] != START {
      assert toks[q] == if q < 4 + n then a[q - 4] else b[q - 8 - n];
    }
    forall p: nat | p + 4 < |toks| ensures IsVerb(toks, p) ==> toks[p + 4] == a[0] || toks[p + 4] == b[0] {
      FourStarts(toks, p);
    }
  }

  lemma FourStarts(toks: seq<Token>, p: nat)
    requires p + 4 < |toks|
    ensures IsVerb(toks, p) ==> toks[p] == toks[p + 1] == toks[p + 2] == toks[p + 3] == START
  {
    var run := toks[p..p + 4];
    assert run[0] == toks[p] && run[1] == toks[p + 1] && run[2] == toks[p + 2] && run[3] == toks[p + 3];
  }

  lemma WriteIsShort(slot: int)
    ensures CodeBound([(slot, Program(slot, WriteBody()))]) <= RATE * 30
  {
    assert TenTo(1) == 10;
    DigitCount(5, 1);
    DigitCount(3, 1);
    var progs := [(slot, Program(slot, WriteBody()))];
    assert progs[1..] == [] && CodeBound([]) == 0;
    assert CodeBound(progs) == RATE * (|WriteBody()| + 1) + 1;
    assert |EncodeInteger(5)| <= 2 && |VerbArg(STORE, 3)| <= 11;
  }

  // ----- its runs -----

  lemma StoreStep(env: Env, toks: seq<Token>, p: nat, slot: int, v: int, st: State)
    requires Here(toks, p, VerbArg(STORE, slot)) && p < |toks| && env.attached && st.steps < env.maxSteps
    requires st.stack == [v] && slot >= 0 && Granted(env, slot)
    ensures Exec(env, toks, p, |toks|, st)
         == Exec(env, toks, p + |VerbArg(STORE, slot)|, |toks|, Stored(Pop(Tick(st)), slot, v))
  {
    hide Exec, EncodeInteger, VerbArg;
    ArgVerb(env, toks, p, |toks|, STORE, slot, Tick(st));
    WalkStep(env, toks, p, |toks|, st, p + |VerbArg(STORE, slot)|, Stored(Pop(Tick(st)), slot, v));
  }

  lemma WriteWalks(env: Env, slot: int, st: State) returns (st': State)
    requires slot in env.programs && env.programs[slot] == Program(slot, WriteBody())
    requires st.stack == [] && st.output == [] && st.steps == 0 && st.fits && 4 <= env.maxSteps
    requires env.attached && Granted(env, 3)
    ensures CallSlot(env, slot, st) == (st', Fall(0))
    ensures st'.grid == st.grid[3 := EncodeInteger(5) + [RECORD]] && st'.last == 5 && st'.fits
  {
    hide Exec, ExecOne, EncodeInteger, Here, VerbArg;
    var toks := env.programs[slot];
    var h := VerbArg(DEF, slot);
    var p := |h|;
    var p1 := p + |EncodeInteger(5)|;
    var p2 := p1 + |VerbArg(STORE, 3)|;
    WritePlaces(slot, toks, p, p1, p2);
    var s0 := HeaderWalks(env, slot, toks, h, WriteBody(), st);
    NumberWalks(env, toks, p, |toks|, 5, s0);
    var s1 := Push(Tick(s0), 5);
    StoreStep(env, toks, p1, 3, 5, s1);
    var s2 := Stored(Pop(Tick(s1)), 3, 5);
    LastStep(env, toks, p2, s2);
    st' := Tick(s2);
  }

  /** Run as holder -1, with no grant for slot 3, the program is refused by the walker,
      and the image writes the slot and does not say that anything was refused. */
  lemma MinusOneWrites(progs: Source, env: Env, slot: int,
                       rax: int, rbx: int, rcx: int, r13: int, r14: int, r15: int) returns (c': Cpu)
    requires progs == [(slot, Program(slot, WriteBody()))] && Loads(progs, env.programs)
    requires env.attached && ArenaOk(env, map[]) && 4 <= env.maxSteps
    requires env.holder == -1 && 3 !in env.grants
    ensures CallSlot(env, slot, Fresh(map[], rax)).1.Refused? && CompileAll(progs, slot).Some?
    ensures Reaches(CompileAll(progs, slot).value, Enter(ArenaFor(env, map[]), rax, rbx, rcx, r13, r14, r15), c')
    ensures c'.pc == EXIT && c'.rax != REFUSED && |c'.mem| == TOP_CELL && c'.mem[3] == 5
  {
    hide CallSlot, WriteBody, CompileAll, ArenaFor, SoundProgram, Callable, CodeBound, Reaches, EncodeInteger,
         ParseInts;
    assert progs[0] == (slot, Program(slot, WriteBody()));
    WriteSound(slot);
    WriteCalls(slot);
    WriteIsShort(slot);
    var more := AsRead(env);
    var s0 := Fresh(map[], rax);
    var st := WriteWalks(more, slot, s0);
    StoredReadsBack(5);
    c' := LoadedAgree(progs, slot, env, map[], rax, rbx, rcx, r13, r14, r15);
    assert Gates.Fewer(env.grants, more) && Gates.With(more, env.grants) == env;
    Gates.RefusedWhenWritten(more, env.grants, slot, s0, 3);
  }
}
