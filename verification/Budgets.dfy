/** The step budget of the walker bounds a run and does nothing else: with a smaller
    budget the same walk is cut off at that tick, or goes as before if it ends in
    time (python/griddb_interp.py). */
module Budgets {
  import opened Lexicon
  import opened Interp

  function Budgeted(env: Env, max: nat): Env {
    env.(maxSteps := max)
  }

  /** r is how a walk ends; q is how it ends when only max ticks are allowed. */
  predicate CutAt(max: nat, r: (State, Outcome), q: (State, Outcome)) {
    if r.0.steps <= max then q == r else q.1 == Failed(OutOfGas) && q.0.steps == max + 1
  }

  lemma {:induction false} ExecCut(env: Env, max: nat, toks: seq<Token>, pos: nat, end: nat, st: State)
    requires end <= |toks| && st.steps <= max <= env.maxSteps
    ensures CutAt(max, Exec(env, toks, pos, end, st), Exec(Budgeted(env, max), toks, pos, end, st))
    decreases Remaining(env, st), 0
  {
    hide ExecOne;
    var s := Tick(st);
    if pos < end && s.steps <= max {
      OneCut(env, max, toks, pos, end, s);
      var (s', o) := ExecOne(env, toks, pos, end, s);
      if o.Fall? && s'.steps <= max {
        ExecCut(env, max, toks, o.pos, end, s');
      }
    }
  }

  lemma {:induction false} OneCut(env: Env, max: nat, toks: seq<Token>, pos: nat, end: nat, s: State)
    requires pos < end <= |toks| && s.steps <= max <= env.maxSteps
    ensures CutAt(max, ExecOne(env, toks, pos, end, s), ExecOne(Budgeted(env, max), toks, pos, end, s))
    decreases Remaining(env, s), 4
  {
    hide Dispatch, Exec, ReadInt, Match;
    var t := toks[pos];
    if t == START && IsVerb(toks, pos) {
      if pos + 4 < |toks| {
        var cmd := toks[pos + 4];
        var (arg, p) := if HasArg(cmd) then ReadInt(toks, pos + 9, end) else (0, pos + 9);
        DispatchCut(env, max, cmd, arg, toks, p, end, s);
      }
    } else if t == LPAREN {
      var m := Match(toks, pos, end);
      if m.Some? {
        ExecCut(env, max, toks, pos + 1, m.value, s);
      }
    }
  }

  lemma {:induction false} DispatchCut(env: Env, max: nat, cmd: Token, arg: int, toks: seq<Token>, pos: nat, end: nat,
      s: State)
    requires end <= |toks| && s.steps <= max <= env.maxSteps
    ensures CutAt(max, Dispatch(env, cmd, arg, toks, pos, end, s),
            Dispatch(Budgeted(env, max), cmd, arg, toks, pos, end, s))
    decreases Remaining(env, s), 3
  {
    hide Exec, CallSlot, Loop, Match, Arms, ParseInts, EncodeInteger;
    if cmd == CALL {
      CallCut(env, max, arg, s);
    } else if cmd == IF {
      if s.stack != [] && Arms(toks, pos, end, end, 3).Some? {
        var regions := Arms(toks, pos, end, end, 3).value.0;
        var k := ArmIndex(Top(s));
        if k < |regions| {
          assert regions[k] in regions;
          ExecCut(env, max, toks, regions[k].0, regions[k].1, Pop(s));
        }
      }
    } else if cmd == LOOP {
      if pos < |toks| && toks[pos] == LPAREN && Match(toks, pos, end).Some? {
        LoopCut(env, max, toks, pos + 1, Match(toks, pos, end).value, s);
      }
    }
  }

  /** A called program. */
  lemma {:induction false} CallCut(env: Env, max: nat, slot: int, s: State)
    requires s.steps <= max <= env.maxSteps
    ensures CutAt(max, CallSlot(env, slot, s), CallSlot(Budgeted(env, max), slot, s))
    decreases Remaining(env, s), 2
  {
    hide Exec;
    if slot in env.programs {
      ExecCut(env, max, env.programs[slot], 0, |env.programs[slot]|, s);
    }
  }

  lemma {:induction false} LoopCut(env: Env, max: nat, toks: seq<Token>, lo: nat, hi: nat, st: State)
    requires hi <= |toks| && st.steps <= max <= env.maxSteps
    ensures CutAt(max, Loop(env, toks, lo, hi, st), Loop(Budgeted(env, max), toks, lo, hi, st))
    decreases Remaining(env, st), 1
  {
    hide Exec;
    var s := Tick(st);
    if s.steps <= max {
      ExecCut(env, max, toks, lo, hi, s);
      var (s', o) := Exec(env, toks, lo, hi, s);
      if o.Fall? && s'.steps <= max {
        LoopCut(env, max, toks, lo, hi, s');
      }
    }
  }
}
