/** The walker of python/griddb_interp.py: programs are flat token records, a
    value stack, grid slots holding records, a step budget and a write gate.
    Exec/Dispatch/Call/Loop are its meaning on values; class Machine is the
    object that runs it in place. */
module Interp {
  import opened Lexicon

  datatype Fault =
    | OutOfGas | StackEmpty | DivByZero | Truncated
    | NoProgram | NoRegion | Unbalanced | EmptySlot | BadSlot | NoGrid

  /** How a walk ends: at a position, by one of the two control signals, by a
      refused write, or by an error. */
  datatype Outcome =
    | Fall(pos: nat) | Broke | Returned | Refused | Failed(why: Fault)

  datatype Env = Env(
    programs: map<int, seq<Token>>,
    grants: map<int, int>,   // slot -> holder of its live write grant
    holder: int,
    maxSteps: nat,
    attached: bool)          // a grid is attached

  /** fits and last are observers that no step reads. fits stays true while every
      value pushed is a 64-bit word, the stack holds at most 1024 values and the
      output at most 256; last is the value most recently pushed or popped. */
  datatype State = State(
    stack: seq<int>, output: seq<int>, grid: map<int, seq<Token>>, steps: nat, fits: bool, last: int)

  const STACK_CAP := 1024
  const OUTPUT_CAP := 256
  const WORD_MAX := 0x8000_0000_0000_0000

  predicate InWord(v: int) {
    -WORD_MAX <= v < WORD_MAX
  }

  function Push(st: State, v: int): State {
    st.(stack := st.stack + [v], fits := st.fits && InWord(v) && |st.stack| < STACK_CAP, last := v)
  }

  function Pop(st: State): State
    requires st.stack != []
  {
    st.(stack := st.stack[..|st.stack| - 1], last := Top(st))
  }

  function Top(st: State): int
    requires st.stack != []
  {
    st.stack[|st.stack| - 1]
  }

  function Output(st: State, v: int): State {
    st.(output := st.output + [v], fits := st.fits && |st.output| < OUTPUT_CAP)
  }

  /** The grid whose slots hold these integers. */
  function GridOf(slots: map<int, int>): map<int, seq<Token>> {
    map s | s in slots :: EncodeInteger(slots[s]) + [RECORD]
  }

  predicate IsOp(t: Token) {
    PLUS <= t <= DIV
  }

  function Apply(t: Token, a: int, b: int): int
    requires IsOp(t) && (t == DIV ==> b != 0)
  {
    if t == PLUS then a + b else if t == MINUS then a - b else if t == MUL then a * b else FloorDiv(a, b)
  }

  function Remaining(env: Env, st: State): nat {
    if st.steps > env.maxSteps then 0 else env.maxSteps + 1 - st.steps
  }

  function Tick(st: State): State {
    st.(steps := st.steps + 1)
  }

  function Exec(env: Env, toks: seq<Token>, pos: nat, end: nat, st: State): (r: (State, Outcome))
    requires end <= |toks|
    ensures r.0.steps >= st.steps
    decreases Remaining(env, st), 0
  {
    if pos >= end then (st, Fall(pos))
    else
      var s := Tick(st);
      if s.steps > env.maxSteps then (s, Failed(OutOfGas))
      else
        var (s', o) := ExecOne(env, toks, pos, end, s);
        if o.Fall? then Exec(env, toks, o.pos, end, s') else (s', o)
  }

  /** One turn of the walk, after its tick. */
  function ExecOne(env: Env, toks: seq<Token>, pos: nat, end: nat, s: State): (r: (State, Outcome))
    requires pos < end <= |toks|
    ensures r.0.steps >= s.steps
    decreases Remaining(env, s), 4
  {
    var t := toks[pos];
    if t == START && IsVerb(toks, pos) then
      if pos + 4 >= |toks| then (s, Failed(Truncated))
      else
        var cmd := toks[pos + 4];
        var (arg, p) := if HasArg(cmd) then ReadInt(toks, pos + 9, end) else (0, pos + 9);
        Dispatch(env, cmd, arg, toks, p, end, s)
    else if IsDigit(t) || IsNeg(t) then
      var (v, p) := ReadInt(toks, pos, end);
      (Push(s, v), Fall(p))
    else if IsOp(t) then
      if |s.stack| < 2 then (s.(stack := []), Failed(StackEmpty))
      else
        var b, a := Top(s), Top(Pop(s));
        var s2 := Pop(Pop(s));
        if t == DIV && b == 0 then (s2, Failed(DivByZero))
        else (Push(s2, Apply(t, a, b)), Fall(pos + 1))
    else if t == EMIT then
      if s.stack == [] then (s, Failed(StackEmpty))
      else (Output(Pop(s), Top(s)), Fall(pos + 1))
    else if t == LPAREN then
      var m := Match(toks, pos, end);
      if m.None? then (s, Failed(Unbalanced))
      else Resume(Exec(env, toks, pos + 1, m.value, s), m.value + 1)
    else if t == RECORD then (s, Returned)
    else (s, Fall(pos + 1))
  }

  function Resume(r: (State, Outcome), pos: nat): (State, Outcome) {
    if r.1.Fall? then (r.0, Fall(pos)) else r
  }

  /** Which region of an IF the sign of the tested value selects. */
  function ArmIndex(test: int): nat {
    if test > 0 then 0 else if test == 0 then 1 else 2
  }

  function StoreSlot(env: Env, slot: int, v: int, s: State): (State, Outcome) {
    if !env.attached then (s, Failed(NoGrid))
    else if !(slot in env.grants && env.grants[slot] == env.holder) then (s, Refused)
    else if slot < 0 then (s, Failed(BadSlot))
    else (s.(grid := s.grid[slot := EncodeInteger(v) + [RECORD]]), Fall(0))
  }

  function Dispatch(env: Env, cmd: Token, arg: int, toks: seq<Token>, pos: nat, end: nat,
      s: State): (r: (State, Outcome))
    requires end <= |toks|
    ensures r.0.steps >= s.steps
    decreases Remaining(env, s), 3
  {
    if cmd == CALL then Resume(CallSlot(env, arg, s), pos)
    else if cmd == RET then (s, Returned)
    else if cmd == BREAK then (s, Broke)
    else if cmd == IF then
      if s.stack == [] then (s, Failed(StackEmpty))
      else
        var s1 := Pop(s);
        var arms := Arms(toks, pos, end, end, 3);
        if arms.None? then (s1, Failed(Unbalanced))
        else
          var (regions, p) := arms.value;
          var k := ArmIndex(Top(s));
          if regions == [] then (s1, Failed(NoRegion))
          else if k < |regions| then
            assert regions[k] in regions;
            Resume(Exec(env, toks, regions[k].0, regions[k].1, s1), p)
          else (s1, Fall(p))
    else if cmd == LOOP then
      if pos >= |toks| || toks[pos] != LPAREN then (s, Failed(NoRegion))
      else
        var m := Match(toks, pos, end);
        if m.None? then (s, Failed(Unbalanced))
        else Loop(env, toks, pos + 1, m.value, s)
    else if cmd == STORE then
      if s.stack == [] then (s, Failed(StackEmpty))
      else Resume(StoreSlot(env, arg, Top(s), Pop(s)), pos)
    else if cmd == LOADX then
      if s.stack == [] then (s, Failed(StackEmpty))
      else
        var slot, s1 := Top(s), Pop(s);
        if !env.attached then (s1, Failed(NoGrid))
        else if slot < 0 then (s1, Failed(BadSlot))
        else if slot !in s.grid then (Push(s1, 0), Fall(pos))
        else
          var vs := ParseInts(s.grid[slot]);
          (Push(s1, if vs == [] then 0 else vs[0]), Fall(pos))
    else if cmd == STOREX then
      if |s.stack| < 2 then (s.(stack := []), Failed(StackEmpty))
      else Resume(StoreSlot(env, Top(s), Top(Pop(s)), Pop(Pop(s))), pos)
    else if cmd == READ then
      if !env.attached then (s, Failed(NoGrid))
      else if arg < 0 then (s, Failed(BadSlot))
      else if arg !in s.grid then (s, Failed(EmptySlot))
      else
        var vs := ParseInts(s.grid[arg]);
        if vs == [] then (s, Failed(EmptySlot)) else (Push(s, vs[0]), Fall(pos))
    else (s, Fall(pos))   // DEF and unknown verbs have no effect
  }

  /** CALL: the record's walk, with RET and the end of the record alike. */
  function CallSlot(env: Env, slot: int, s: State): (r: (State, Outcome))
    ensures r.0.steps >= s.steps
    decreases Remaining(env, s), 2
  {
    if slot !in env.programs then (s, Failed(NoProgram))
    else
      var toks := env.programs[slot];
      var (s', o) := Exec(env, toks, 0, |toks|, s);
      (s', if o.Returned? then Fall(0) else o)
  }

  /** LOOP over the region body [lo, hi): a tick, then the body, until BREAK. */
  function Loop(env: Env, toks: seq<Token>, lo: nat, hi: nat, st: State): (r: (State, Outcome))
    requires hi <= |toks|
    ensures r.0.steps >= st.steps
    decreases Remaining(env, st), 1
  {
    var s := Tick(st);
    if s.steps > env.maxSteps then (s, Failed(OutOfGas))
    else
      var (s', o) := Exec(env, toks, lo, hi, s);
      if o.Fall? then Loop(env, toks, lo, hi, s')
      else if o.Broke? then (s', Fall(hi + 1))
      else (s', o)
  }

  // ----- confinement and termination -----

  /** Slots whose live write grant is not the holder's keep their records. */
  ghost predicate Gated(env: Env, before: map<int, seq<Token>>, after: map<int, seq<Token>>) {
    && before.Keys <= after.Keys
    && (forall slot :: slot in after && !(slot in env.grants && env.grants[slot] == env.holder) ==>
          slot in before && after[slot] == before[slot])
  }

  /** What every walk keeps, whatever the tokens: the budget is overrun by at
      most the one tick that reports it, ungranted slots keep their records,
      nothing emitted is taken back. */
  ghost predicate Confined(env: Env, st: State, r: (State, Outcome)) {
    && (r.1 == Failed(OutOfGas) ==> r.0.steps == env.maxSteps + 1)
    && (r.1 != Failed(OutOfGas) ==> r.0.steps <= env.maxSteps)
    && st.output <= r.0.output
    && Gated(env, st.grid, r.0.grid)
    && (r.0.fits ==> st.fits)
  }

  lemma ConfinedTrans(env: Env, st: State, mid: State, r: (State, Outcome))
    requires Confined(env, st, (mid, Fall(0))) && Confined(env, mid, r)
    ensures Confined(env, st, r)
  {
    assert st.output <= mid.output <= r.0.output;
  }

  lemma {:induction false} ExecConfined(env: Env, toks: seq<Token>, pos: nat, end: nat, st: State)
    requires end <= |toks| && st.steps <= env.maxSteps
    ensures Confined(env, st, Exec(env, toks, pos, end, st))
    decreases Remaining(env, st), 0
  {
    var s := Tick(st);
    if pos < end && s.steps <= env.maxSteps {
      ExecOneConfined(env, toks, pos, end, s);
      var (s', o) := ExecOne(env, toks, pos, end, s);
      if o.Fall? {
        ExecConfined(env, toks, o.pos, end, s');
        ConfinedTrans(env, s, s', Exec(env, toks, o.pos, end, s'));
      }
    }
  }

  lemma {:induction false} ExecOneConfined(env: Env, toks: seq<Token>, pos: nat, end: nat, s: State)
    requires pos < end <= |toks| && s.steps <= env.maxSteps
    ensures Confined(env, s, ExecOne(env, toks, pos, end, s))
    decreases Remaining(env, s), 4
  {
    var t := toks[pos];
    if t == START && IsVerb(toks, pos) {
      if pos + 4 < |toks| {
        var cmd := toks[pos + 4];
        var (arg, p) := if HasArg(cmd) then ReadInt(toks, pos + 9, end) else (0, pos + 9);
        DispatchConfined(env, cmd, arg, toks, p, end, s);
      }
    } else if t == LPAREN {
      var m := Match(toks, pos, end);
      if m.Some? {
        ExecConfined(env, toks, pos + 1, m.value, s);
      }
    }
  }

  lemma StoreConfined(env: Env, slot: int, v: int, s: State)
    requires s.steps <= env.maxSteps
    ensures Confined(env, s, StoreSlot(env, slot, v, s))
  {
  }

  lemma {:induction false} DispatchConfined(env: Env, cmd: Token, arg: int, toks: seq<Token>, pos: nat, end: nat,
      s: State)
    requires end <= |toks| && s.steps <= env.maxSteps
    ensures Confined(env, s, Dispatch(env, cmd, arg, toks, pos, end, s))
    decreases Remaining(env, s), 3
  {
    hide Exec, CallSlot, Loop, Match, Arms, ParseInts, StoreSlot;
    if cmd == CALL {
      CallConfined(env, arg, s);
    } else if cmd == IF {
      if s.stack != [] {
        IfConfined(env, toks, pos, end, s);
      }
    } else if cmd == LOOP {
      if pos < |toks| && Match(toks, pos, end).Some? {
        LoopConfined(env, toks, pos + 1, Match(toks, pos, end).value, s);
      }
    } else if cmd == STORE {
      if s.stack != [] {
        StoreConfined(env, arg, Top(s), Pop(s));
      }
    } else if cmd == STOREX {
      if |s.stack| >= 2 {
        StoreConfined(env, Top(s), Top(Pop(s)), Pop(Pop(s)));
      }
    }
  }

  lemma {:induction false} IfConfined(env: Env, toks: seq<Token>, pos: nat, end: nat, s: State)
    requires end <= |toks| && s.steps <= env.maxSteps && s.stack != []
    ensures Confined(env, s, Dispatch(env, IF, 0, toks, pos, end, s))
    decreases Remaining(env, s), 2
  {
    var arms := Arms(toks, pos, end, end, 3);
    if arms.Some? {
      var k := ArmIndex(Top(s));
      if k < |arms.value.0| {
        var arm := arms.value.0[k];
        assert arm in arms.value.0;
        ExecConfined(env, toks, arm.0, arm.1, Pop(s));
      }
    }
  }

  lemma {:induction false} CallConfined(env: Env, slot: int, s: State)
    requires s.steps <= env.maxSteps
    ensures Confined(env, s, CallSlot(env, slot, s))
    decreases Remaining(env, s), 2
  {
    if slot in env.programs {
      ExecConfined(env, env.programs[slot], 0, |env.programs[slot]|, s);
    }
  }

  lemma {:induction false} LoopConfined(env: Env, toks: seq<Token>, lo: nat, hi: nat, st: State)
    requires hi <= |toks| && st.steps <= env.maxSteps
    ensures Confined(env, st, Loop(env, toks, lo, hi, st))
    decreases Remaining(env, st), 1
  {
    var s := Tick(st);
    if s.steps <= env.maxSteps {
      ExecConfined(env, toks, lo, hi, s);
      var (s', o) := Exec(env, toks, lo, hi, s);
      if o.Fall? {
        LoopConfined(env, toks, lo, hi, s');
        ConfinedTrans(env, s, s', Loop(env, toks, lo, hi, s'));
      }
    }
  }

  /** Deny by default: whatever program runs and however it ends, a run stops
      within maxSteps + 1 ticks and a holder with no write grant at all leaves
      the grid exactly as it was. */
  lemma UngrantedRunsTouchNothing(env: Env, slot: int, st: State)
    requires st.steps == 0
    requires forall s :: s in env.grants ==> env.grants[s] != env.holder
    ensures CallSlot(env, slot, st).0.grid == st.grid
    ensures CallSlot(env, slot, st).0.steps <= env.maxSteps + 1
  {
    CallConfined(env, slot, st);
    var after := CallSlot(env, slot, st).0.grid;
    assert forall s :: s in after ==> s in st.grid && after[s] == st.grid[s];
  }
}
