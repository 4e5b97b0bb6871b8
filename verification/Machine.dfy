/** The object of python/griddb_interp.py: it walks token records in place,
    mutating its stack, output, grid and step counter. Every method is tied to
    the meaning given in module Interp. */
module Walker {
  import opened Lexicon
  import opened Interp
  import opened Readers

  class Machine {
    const grants: map<int, int>
    const holder: int
    const maxSteps: nat
    const attached: bool
    var programs: map<int, seq<Token>>
    var stack: seq<int>
    var output: seq<int>
    var grid: map<int, seq<Token>>
    var steps: nat
    ghost var fits: bool
    ghost var last: int

    constructor (grants: map<int, int>, holder: int, maxSteps: nat, attached: bool, grid: map<int, seq<Token>>)
      ensures Settings() == Env(map[], grants, holder, maxSteps, attached)
      ensures Now() == State([], [], grid, 0, true, 0)
    {
      this.grants, this.holder, this.maxSteps, this.attached := grants, holder, maxSteps, attached;
      this.programs, this.stack, this.output, this.grid := map[], [], [], grid;
      this.steps, this.fits, this.last := 0, true, 0;
    }

    ghost function Settings(): Env
      reads this
    {
      Env(programs, grants, holder, maxSteps, attached)
    }

    ghost function Now(): State
      reads this
    {
      State(stack, output, grid, steps, fits, last)
    }

    /** A record becomes a program only when it opens with DEF and its own slot. */
    method Load(slot: int, tokens: seq<Token>) returns (ok: bool)
      modifies this`programs
      ensures ok <==> VerbArg(DEF, slot) <= tokens
      ensures programs == if ok then old(programs)[slot := tokens] else old(programs)
    {
      var head := VerbArg(DEF, slot);
      ok := |head| <= |tokens| && tokens[..|head|] == head;
      if ok {
        programs := programs[slot := tokens];
      }
    }

    method Run(slot: int) returns (o: Outcome)
      modifies this`stack, this`output, this`grid, this`steps, this`fits, this`last
      ensures (Now(), o) == CallSlot(Settings(), slot, old(Now()).(steps := 0))
    {
      steps := 0;
      o := Invoke(slot);
    }

    method Invoke(slot: int) returns (o: Outcome)
      modifies this`stack, this`output, this`grid, this`steps, this`fits, this`last
      ensures (Now(), o) == CallSlot(Settings(), slot, old(Now()))
      decreases Remaining(Settings(), Now()), 2
    {
      if slot !in programs {
        return Failed(NoProgram);
      }
      var toks := programs[slot];
      o := Walk(toks, 0, |toks|);
      if o.Returned? {
        o := Fall(0);
      }
    }

    method Gas() returns (ok: bool)
      modifies this`steps
      ensures Now() == Tick(old(Now()))
      ensures ok <==> steps <= maxSteps
    {
      steps := steps + 1;
      ok := steps <= maxSteps;
    }

    method PushValue(v: int)
      modifies this`stack, this`fits, this`last
      ensures Now() == Push(old(Now()), v)
    {
      fits := fits && InWord(v) && |stack| < STACK_CAP;
      last := v;
      stack := stack + [v];
    }

    method PopValue() returns (v: int)
      requires stack != []
      modifies this`stack, this`last
      ensures v == Top(old(Now())) && Now() == Pop(old(Now()))
    {
      v := stack[|stack| - 1];
      stack := stack[..|stack| - 1];
      last := v;
    }

    method Walk(toks: seq<Token>, pos: nat, end: nat) returns (o: Outcome)
      requires end <= |toks|
      modifies this`stack, this`output, this`grid, this`steps, this`fits, this`last
      ensures (Now(), o) == Exec(Settings(), toks, pos, end, old(Now()))
      decreases Remaining(Settings(), Now()), 0
    {
      var p: nat := pos;
      while p < end
        invariant steps >= old(steps)
        invariant Exec(Settings(), toks, pos, end, old(Now())) == Exec(Settings(), toks, p, end, Now())
        decreases Remaining(Settings(), Now())
      {
        var ok := Gas();
        if !ok {
          return Failed(OutOfGas);
        }
        o := Turn(toks, p, end);
        if !o.Fall? {
          return;
        }
        p := o.pos;
      }
      o := Fall(p);
    }

    method Turn(toks: seq<Token>, pos: nat, end: nat) returns (o: Outcome)
      requires pos < end <= |toks|
      modifies this`stack, this`output, this`grid, this`steps, this`fits, this`last
      ensures (Now(), o) == ExecOne(Settings(), toks, pos, end, old(Now()))
      decreases Remaining(Settings(), Now()), 4
    {
      var t := toks[pos];
      if t == START && IsVerb(toks, pos) {
        if pos + 4 >= |toks| {
          return Failed(Truncated);
        }
        var cmd := toks[pos + 4];
        var arg, p := 0, pos + 9;
        if HasArg(cmd) {
          arg, p := ScanInt(toks, p, end);
        }
        o := Perform(cmd, arg, toks, p, end);
      } else if IsDigit(t) || IsNeg(t) {
        var v, p := ScanInt(toks, pos, end);
        PushValue(v);
        o := Fall(p);
      } else if IsOp(t) {
        if |stack| < 2 {
          stack := [];
          return Failed(StackEmpty);
        }
        var b := PopValue();
        var a := PopValue();
        if t == DIV && b == 0 {
          return Failed(DivByZero);
        }
        PushValue(Apply(t, a, b));
        o := Fall(pos + 1);
      } else if t == EMIT {
        if stack == [] {
          return Failed(StackEmpty);
        }
        var v := PopValue();
        fits := fits && |output| < OUTPUT_CAP;
        output := output + [v];
        o := Fall(pos + 1);
      } else if t == LPAREN {
        var close := FindClose(toks, pos, end);
        if close.None? {
          return Failed(Unbalanced);
        }
        o := Walk(toks, pos + 1, close.value);
        if o.Fall? {
          o := Fall(close.value + 1);
        }
      } else if t == RECORD {
        o := Returned;
      } else {
        o := Fall(pos + 1);
      }
    }

    method Perform(cmd: Token, arg: int, toks: seq<Token>, pos: nat, end: nat) returns (o: Outcome)
      requires end <= |toks|
      modifies this`stack, this`output, this`grid, this`steps, this`fits, this`last
      ensures (Now(), o) == Dispatch(Settings(), cmd, arg, toks, pos, end, old(Now()))
      decreases Remaining(Settings(), Now()), 3
    {
      if cmd == CALL {
        o := Invoke(arg);
        if o.Fall? {
          o := Fall(pos);
        }
      } else if cmd == RET {
        o := Returned;
      } else if cmd == BREAK {
        o := Broke;
      } else if cmd == IF {
        o := Branch(toks, pos, end);
      } else if cmd == LOOP {
        if pos >= |toks| || toks[pos] != LPAREN {
          return Failed(NoRegion);
        }
        var close := FindClose(toks, pos, end);
        if close.None? {
          return Failed(Unbalanced);
        }
        o := Repeat(toks, pos + 1, close.value);
      } else if cmd == STORE {
        if stack == [] {
          return Failed(StackEmpty);
        }
        var v := PopValue();
        o := WriteSlot(arg, v);
        if o.Fall? {
          o := Fall(pos);
        }
      } else if cmd == LOADX {
        if stack == [] {
          return Failed(StackEmpty);
        }
        var slot := PopValue();
        o := ReadIndexed(slot, pos);
      } else if cmd == STOREX {
        if |stack| < 2 {
          stack := [];
          return Failed(StackEmpty);
        }
        var slot := PopValue();
        var v := PopValue();
        o := WriteSlot(slot, v);
        if o.Fall? {
          o := Fall(pos);
        }
      } else if cmd == READ {
        if !attached {
          return Failed(NoGrid);
        }
        if arg < 0 {
          return Failed(BadSlot);
        }
        if arg !in grid {
          return Failed(EmptySlot);
        }
        var vs := ScanInts(grid[arg]);
        if vs == [] {
          return Failed(EmptySlot);
        }
        PushValue(vs[0]);
        o := Fall(pos);
      } else {
        o := Fall(pos);
      }
    }

    /** LOADX: an unset slot reads as zero. */
    method ReadIndexed(slot: int, pos: nat) returns (o: Outcome)
      modifies this`stack, this`fits, this`last
      ensures o == (if !attached then Failed(NoGrid) else if slot < 0 then Failed(BadSlot) else Fall(pos))
      ensures Now() == (if !o.Fall? then old(Now())
                        else Push(old(Now()),
                             if slot in grid && ParseInts(grid[slot]) != [] then ParseInts(grid[slot])[0] else 0))
    {
      if !attached {
        return Failed(NoGrid);
      }
      if slot < 0 {
        return Failed(BadSlot);
      }
      if slot !in grid {
        PushValue(0);
      } else {
        var vs := ScanInts(grid[slot]);
        PushValue(if vs == [] then 0 else vs[0]);
      }
      o := Fall(pos);
    }

    /** The gate: a write needs the holder's own live grant on the slot. */
    method WriteSlot(slot: int, v: int) returns (o: Outcome)
      modifies this`grid
      ensures (Now(), o) == StoreSlot(Settings(), slot, v, old(Now()))
    {
      if !attached {
        return Failed(NoGrid);
      }
      if !(slot in grants && grants[slot] == holder) {
        return Refused;
      }
      if slot < 0 {
        return Failed(BadSlot);
      }
      grid := grid[slot := EncodeInteger(v) + [RECORD]];
      o := Fall(0);
    }

    method Branch(toks: seq<Token>, pos: nat, end: nat) returns (o: Outcome)
      requires end <= |toks|
      modifies this`stack, this`output, this`grid, this`steps, this`fits, this`last
      ensures (Now(), o) == Dispatch(Settings(), IF, 0, toks, pos, end, old(Now()))
      decreases Remaining(Settings(), Now()), 2
    {
      if stack == [] {
        return Failed(StackEmpty);
      }
      var test := PopValue();
      var arms := CollectArms(toks, pos, end, end);
      if arms.None? {
        return Failed(Unbalanced);
      }
      var (regions, p) := arms.value;
      if regions == [] {
        return Failed(NoRegion);
      }
      var k := ArmIndex(test);
      if k >= |regions| {
        return Fall(p);
      }
      assert regions[k] in regions;
      o := Walk(toks, regions[k].0, regions[k].1);
      if o.Fall? {
        o := Fall(p);
      }
    }

    method Repeat(toks: seq<Token>, lo: nat, hi: nat) returns (o: Outcome)
      requires hi <= |toks|
      modifies this`stack, this`output, this`grid, this`steps, this`fits, this`last
      ensures (Now(), o) == Loop(Settings(), toks, lo, hi, old(Now()))
      decreases Remaining(Settings(), Now()), 1
    {
      while true
        invariant steps >= old(steps)
        invariant Loop(Settings(), toks, lo, hi, old(Now())) == Loop(Settings(), toks, lo, hi, Now())
        decreases Remaining(Settings(), Now())
      {
        var ok := Gas();
        if !ok {
          return Failed(OutOfGas);
        }
        o := Walk(toks, lo, hi);
        if o.Broke? {
          return Fall(hi + 1);
        }
        if !o.Fall? {
          return;
        }
      }
    }
  }
}
