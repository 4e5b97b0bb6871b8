/** A write grant lets a write through and does nothing else: with fewer grants the
    same walk goes as before, or is refused at the first write it misses one for
    (python/griddb_interp.py). */
module Gates {
  import opened Lexicon
  import opened Interp

  predicate Holds(grants: map<int, int>, holder: int, slot: int) {
    slot in grants && grants[slot] == holder
  }

  /** Whatever the holder may write under few he may write in env. */
  ghost predicate Fewer(few: map<int, int>, env: Env) {
    forall slot :: Holds(few, env.holder, slot) ==> Holds(env.grants, env.holder, slot)
  }

  function With(env: Env, grants: map<int, int>): Env {
    env.(grants := grants)
  }

  /** r is how a walk ends, q how it ends with fewer grants. */
  predicate SameOrRefused(r: (State, Outcome), q: (State, Outcome)) {
    q == r || q.1.Refused?
  }

  lemma {:induction false} ExecGated(env: Env, few: map<int, int>, toks: seq<Token>, pos: nat, end: nat, st: State)
    requires end <= |toks| && Fewer(few, env)
    ensures SameOrRefused(Exec(env, toks, pos, end, st), Exec(With(env, few), toks, pos, end, st))
    decreases Remaining(env, st), 0
  {
    hide ExecOne, Fewer;
    var s := Tick(st);
    if pos < end && s.steps <= env.maxSteps {
      OneGated(env, few, toks, pos, end, s);
      var (s', o) := ExecOne(env, toks, pos, end, s);
      if o.Fall? {
        ExecGated(env, few, toks, o.pos, end, s');
      }
    }
  }

  lemma {:induction false} OneGated(env: Env, few: map<int, int>, toks: seq<Token>, pos: nat, end: nat, s: State)
    requires pos < end <= |toks| && Fewer(few, env) && s.steps <= env.maxSteps
    ensures SameOrRefused(ExecOne(env, toks, pos, end, s), ExecOne(With(env, few), toks, pos, end, s))
    decreases Remaining(env, s), 4
  {
    hide Dispatch, Exec, ReadInt, Match, Fewer;
    var t := toks[pos];
    if t == START && IsVerb(toks, pos) {
      if pos + 4 < |toks| {
        var cmd := toks[pos + 4];
        var (arg, p) := if HasArg(cmd) then ReadInt(toks, pos + 9, end) else (0, pos + 9);
        DispatchGated(env, few, cmd, arg, toks, p, end, s);
      }
    } else if t == LPAREN {
      var m := Match(toks, pos, end);
      if m.Some? {
        ExecGated(env, few, toks, pos + 1, m.value, s);
      }
    }
  }

  lemma StoreGated(env: Env, few: map<int, int>, slot: int, v: int, s: State)
    requires Fewer(few, env)
    ensures SameOrRefused(StoreSlot(env, slot, v, s), StoreSlot(With(env, few), slot, v, s))
  {
    assert Holds(few, env.holder, slot) ==> Holds(env.grants, env.holder, slot);
    hide EncodeInteger;
  }

  lemma {:induction false} DispatchGated(env: Env, few: map<int, int>, cmd: Token, arg: int, toks: seq<Token>,
                                         pos: nat, end: nat, s: State)
    requires end <= |toks| && Fewer(few, env) && s.steps <= env.maxSteps
    ensures SameOrRefused(Dispatch(env, cmd, arg, toks, pos, end, s),
            Dispatch(With(env, few), cmd, arg, toks, pos, end, s))
    decreases Remaining(env, s), 3
  {
    hide Exec, CallSlot, Loop, Match, Arms, ParseInts, EncodeInteger, StoreSlot, Fewer;
    if cmd == CALL {
      CallGated(env, few, arg, s);
    } else if cmd == IF {
      if s.stack != [] && Arms(toks, pos, end, end, 3).Some? {
        var regions := Arms(toks, pos, end, end, 3).value.0;
        var k := ArmIndex(Top(s));
        if k < |regions| {
          assert regions[k] in regions;
          ExecGated(env, few, toks, regions[k].0, regions[k].1, Pop(s));
        }
      }
    } else if cmd == LOOP {
      if pos < |toks| && toks[pos] == LPAREN && Match(toks, pos, end).Some? {
        LoopGated(env, few, toks, pos + 1, Match(toks, pos, end).value, s);
      }
    } else if cmd == STORE {
      if s.stack != [] {
        StoreGated(env, few, arg, Top(s), Pop(s));
      }
    } else if cmd == STOREX {
      if |s.stack| >= 2 {
        StoreGated(env, few, Top(s), Top(Pop(s)), Pop(Pop(s)));
      }
    }
  }

  /** A called program. */
  lemma {:induction false} CallGated(env: Env, few: map<int, int>, slot: int, s: State)
    requires Fewer(few, env)
    ensures SameOrRefused(CallSlot(env, slot, s), CallSlot(With(env, few), slot, s))
    decreases Remaining(env, s), 2
  {
    hide Exec, Fewer;
    if slot in env.programs {
      ExecGated(env, few, env.programs[slot], 0, |env.programs[slot]|, s);
    }
  }

  lemma {:induction false} LoopGated(env: Env, few: map<int, int>, toks: seq<Token>, lo: nat, hi: nat, st: State)
    requires hi <= |toks| && Fewer(few, env)
    ensures SameOrRefused(Loop(env, toks, lo, hi, st), Loop(With(env, few), toks, lo, hi, st))
    decreases Remaining(env, st), 1
  {
    hide Exec, Fewer;
    var s := Tick(st);
    if s.steps <= env.maxSteps {
      ExecGated(env, few, toks, lo, hi, s);
      var (s', o) := Exec(env, toks, lo, hi, s);
      if o.Fall? {
        LoopGated(env, few, toks, lo, hi, s');
      }
    }
  }

  /** A call that does write a slot it has no grant for among few is refused with them. */
  lemma RefusedWhenWritten(env: Env, few: map<int, int>, slot: int, s: State, cell: int)
    requires Fewer(few, env) && s.steps <= env.maxSteps && !Holds(few, env.holder, cell)
    requires var after := CallSlot(env, slot, s).0.grid;
             cell in after && (cell in s.grid ==> after[cell] != s.grid[cell])
    ensures CallSlot(With(env, few), slot, s).1.Refused?
  {
    CallGated(env, few, slot, s);
    CallConfined(With(env, few), slot, s);
    hide CallSlot, Fewer;
  }
}
