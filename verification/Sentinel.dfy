/** The one value the backend's return convention cannot tell from a refusal. */
module Sentinel {
  import opened Lexicon
  import opened Interp
  import opened Native
  import opened Backend
  import opened Domain
  import opened Arena
  import opened NativeRuns
  import opened Compiles
  import opened Structured

  const LEAST := 1 - TWO63

  /** Computes (1 - 2^63) - 1 and emits it. */
  function LeastBody(): seq<Token> {
    EncodeInteger(LEAST) + EncodeInteger(1) + [MINUS] + [EMIT]
  }

  lemma LeastWalks(env: Env, slot: int, st: State) returns (st': State)
    requires slot in env.programs && env.programs[slot] == Program(slot, LeastBody())
    requires st.stack == [] && st.output == [] && st.steps == 0 && st.fits && 6 <= env.maxSteps
    ensures CallSlot(env, slot, st) == (st', Fall(0))
    ensures st'.output == [REFUSED] && st'.last == REFUSED && st'.fits
  {
    hide Exec, ExecOne, EncodeInteger, Here, VerbArg;
    var toks := env.programs[slot];
    var h := VerbArg(DEF, slot);
    var a, b := EncodeInteger(LEAST), EncodeInteger(1);
    BodyHere(toks, h, LeastBody());
    HereSplit(toks, |h|, a + b + [MINUS], [EMIT]);
    HereSplit(toks, |h|, a + b, [MINUS]);
    HereSplit(toks, |h|, a, b);
    var p1 := |h| + |a|;
    var p2 := p1 + |b|;
    assert |h| + |a + b| == p2;
    var s0 := HeaderWalks(env, slot, toks, h, LeastBody(), st);
    NumberWalks(env, toks, |h|, |toks|, LEAST, s0);
    var s1 := Push(Tick(s0), LEAST);
    NumberWalks(env, toks, p1, |toks|, 1, s1);
    var s2 := Push(Tick(s1), 1);
    var s3 := MinusWalks(env, toks, p2, s2);
    var s4 := EmitsWalks(env, toks, p2 + 1, s3);
    RecordEnds(env, toks, p2 + 2, Tick(s4));
    assert Exec(env, toks, p2 + 2, |toks|, s4) == (Tick(s4), Returned) by { LastStep(env, toks, p2 + 2, s4); }
    st' := Tick(s4);
  }

  lemma LastStep(env: Env, toks: seq<Token>, p: nat, s: State)
    requires p < |toks| && toks[p] == RECORD && s.steps < env.maxSteps
    ensures Exec(env, toks, p, |toks|, s) == (Tick(s), Returned)
  {
  }

  lemma MinusWalks(env: Env, toks: seq<Token>, p: nat, st: State) returns (st': State)
    requires p < |toks| && Here(toks, p, [MINUS]) && st.steps < env.maxSteps && st.stack == [LEAST, 1] && st.fits
    ensures Exec(env, toks, p, |toks|, st) == Exec(env, toks, p + 1, |toks|, st')
    ensures st'.stack == [REFUSED] && st'.output == st.output && st'.fits && st'.steps == st.steps + 1
  {
    hide Exec;
    HereAt(toks, p, [MINUS], 0);
    var s := Tick(st);
    st' := Push(Pop(Pop(s)), REFUSED);
    WalkStep(env, toks, p, |toks|, st, p + 1, st');
  }

  lemma EmitsWalks(env: Env, toks: seq<Token>, p: nat, st: State) returns (st': State)
    requires p < |toks| && Here(toks, p, [EMIT]) && st.steps < env.maxSteps && st.stack == [REFUSED] && st.output == []
             && st.fits
    ensures Exec(env, toks, p, |toks|, st) == Exec(env, toks, p + 1, |toks|, st')
    ensures st'.stack == [] && st'.output == [REFUSED] && st'.last == REFUSED && st'.fits && st'.steps == st.steps + 1
  {
    hide Exec;
    HereAt(toks, p, [EMIT], 0);
    st' := Output(Pop(Tick(st)), REFUSED);
    WalkStep(env, toks, p, |toks|, st, p + 1, st');
  }

  // ----- the program is one the backend is for -----

  predicate NoStart(f: seq<Token>) {
    forall k :: 0 <= k < |f| ==> f[k] != START
  }

  lemma NumberNoStart(v: int)
    ensures NoStart(EncodeInteger(v)) && |EncodeInteger(v)| > 1
    ensures IsDigit(EncodeInteger(v)[0]) || IsNeg(EncodeInteger(v)[0])
  {
    DigitsNotEnd(Digits(Abs(v)), v < 0);
  }

  lemma NumberSound(toks: seq<Token>, p: nat, v: int)
    requires Here(toks, p, EncodeInteger(v)) && p < |toks|
    ensures SoundOne(toks, p, |toks|, false) == Some(p + |EncodeInteger(v)|) && toks[p] != RECORD
  {
    NumberNoStart(v);
    HereAt(toks, p, EncodeInteger(v), 0);
    ReadEncoded(toks, p, |toks|, v);
    hide EncodeInteger;
  }

  /** Where the pieces of the body stand. */
  lemma LeastPlaces(slot: int, toks: seq<Token>, p: nat, p1: nat, p2: nat)
    requires toks == Program(slot, LeastBody()) && p == |VerbArg(DEF, slot)|
    requires p1 == p + |EncodeInteger(LEAST)| && p2 == p1 + |EncodeInteger(1)|
    ensures Here(toks, p, EncodeInteger(LEAST)) && Here(toks, p1, EncodeInteger(1))
    ensures |toks| == p2 + 3 && toks[p2] == MINUS && toks[p2 + 1] == EMIT && toks[p2 + 2] == RECORD
    ensures VerbArg(DEF, slot) <= toks
  {
    hide EncodeInteger, Here, VerbArg;
    var h, a, b := VerbArg(DEF, slot), EncodeInteger(LEAST), EncodeInteger(1);
    BodyHere(toks, h, LeastBody());
    HereSplit(toks, p, a + b + [MINUS], [EMIT]);
    HereSplit(toks, p, a + b, [MINUS]);
    HereSplit(toks, p, a, b);
    assert p + |a + b| == p2;
    HereAt(toks, p2, [MINUS], 0);
    HereAt(toks, p2 + 1, [EMIT], 0);
  }

  lemma SoundStep(toks: seq<Token>, p: nat, q: nat)
    requires p < |toks| && toks[p] != RECORD && SoundOne(toks, p, |toks|, false) == Some(q)
    requires Sound(toks, q, |toks|, false, true)
    ensures Sound(toks, p, |toks|, false, true)
  {
    hide SoundOne;
  }

  lemma SoundEnd(toks: seq<Token>, p: nat)
    requires p < |toks| && toks[p] == RECORD
    ensures Sound(toks, p, |toks|, false, true)
  {
    hide SoundOne;
  }

  lemma SoundFrom(slot: int, toks: seq<Token>)
    requires VerbArg(DEF, slot) <= toks && Sound(toks, |VerbArg(DEF, slot)|, |toks|, false, true)
    ensures SoundProgram(slot, toks)
  {
    hide VerbArg, Sound;
  }

  lemma LeastSound(slot: int)
    ensures SoundProgram(slot, Program(slot, LeastBody()))
  {
    hide *;
    var toks, p := Program(slot, LeastBody()), |VerbArg(DEF, slot)|;
    var p1 := p + |EncodeInteger(LEAST)|;
    var p2 := p1 + |EncodeInteger(1)|;
    LeastPlaces(slot, toks, p, p1, p2);
    NumberSound(toks, p, LEAST);
    NumberSound(toks, p1, 1);
    PlainSound(toks, p2);
    PlainSound(toks, p2 + 1);
    SoundEnd(toks, p2 + 2);
    SoundStep(toks, p2 + 1, p2 + 2);
    SoundStep(toks, p2, p2 + 1);
    SoundStep(toks, p1, p2);
    SoundStep(toks, p, p1);
    SoundFrom(slot, toks);
  }

  lemma PlainSound(toks: seq<Token>, p: nat)
    requires p < |toks| && (toks[p] == MINUS || toks[p] == EMIT)
    ensures SoundOne(toks, p, |toks|, false) == Some(p + 1) && toks[p] != RECORD
  {
  }

  /** The only verb of the program is its header. */
  lemma LeastCalls(slot: int)
    ensures Callable([(slot, Program(slot, LeastBody()))], slot)
  {
    var toks := Program(slot, LeastBody());
    NumberNoStart(slot);
    NumberNoStart(LEAST);
    NumberNoStart(1);
    hide EncodeInteger;
    var tail: seq<Token> := [END, END, END, END] + EncodeInteger(slot) + LeastBody() + [RECORD];
    assert NoStart(tail);
    assert toks == [START, START, START, START, DEF] + tail;
    forall p: nat | p + 4 < |toks|
      ensures p > 0 ==> toks[p + 3] != START
      ensures IsVerb(toks, p) ==> toks[p + 3] == START
    {
      assert p > 1 ==> toks[p + 3] == tail[p - 2];
      if IsVerb(toks, p) {
        assert toks[p..p + 4][3] == toks[p + 3];
      }
    }
    assert toks[4] == DEF;
    assert slot in Slots([(slot, toks)]) by {
      assert [(slot, toks)][0].0 == slot;
    }
  }

  function TenTo(k: nat): nat {
    if k == 0 then 1 else 10 * TenTo(k - 1)
  }

  lemma {:induction false} DigitCount(n: nat, k: nat)
    requires k > 0 && n < TenTo(k)
    ensures |Digits(n)| <= k
  {
    if n >= 10 {
      assert k > 1 by {
        assert TenTo(1) == 10;
      }
      DigitCount(n / 10, k - 1);
    }
  }

  lemma LeastIsShort(slot: int)
    ensures CodeBound([(slot, Program(slot, LeastBody()))]) <= RATE * 30
  {
    assert TenTo(5) == 100_000;
    assert TenTo(10) == 10_000_000_000;
    assert TenTo(15) == 1_000_000_000_000_000;
    assert TenTo(19) == 10_000_000_000_000_000_000;
    DigitCount(TWO63 - 1, 19);
    DigitCount(1, 1);
    var progs := [(slot, Program(slot, LeastBody()))];
    assert progs[1..] == [] && CodeBound([]) == 0;
    assert CodeBound(progs) == RATE * (|LeastBody()| + 1) + 1;
    assert |EncodeInteger(LEAST)| <= 20 && |EncodeInteger(1)| <= 2;
  }

  /** A program that stays inside 64 bits, writes nothing and finishes normally in the
      walker is nevertheless reported as refused by the native run. */
  lemma SentinelCollides(progs: Source, env: Env, slot: int, rax: int, rbx: int, rcx: int, r13: int, r14: int, r15: int)
      returns (c': Cpu)
    requires progs == [(slot, Program(slot, LeastBody()))] && Loads(progs, env.programs)
    requires env.attached && ArenaOk(env, map[]) && 6 <= env.maxSteps
    ensures CallSlot(env, slot, Fresh(map[], rax)).1 == Fall(0) && CompileAll(progs, slot).Some?
    ensures Reaches(CompileAll(progs, slot).value, Enter(ArenaFor(env, map[]), rax, rbx, rcx, r13, r14, r15), c')
    ensures c'.pc == EXIT && c'.rax == REFUSED
  {
    hide CallSlot, LeastBody, CompileAll, ArenaFor, SoundProgram, Callable, CodeBound, ReadsBack, Reaches;
    assert progs[0] == (slot, Program(slot, LeastBody()));
    LeastSound(slot);
    LeastCalls(slot);
    LeastIsShort(slot);
    var st := LeastWalks(env, slot, Fresh(map[], rax));
    var st' := LeastWalks(AsRead(env), slot, Fresh(map[], rax));
    c' := LoadedAgree(progs, slot, env, map[], rax, rbx, rcx, r13, r14, r15);
  }
}
