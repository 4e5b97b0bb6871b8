/** Rules for reading Sem one command at a time. */
module SemRules {
  import opened Lexicon
  import opened Structured

  lemma DiffVal(slots: map<int, int>, s: int, t: int)
    requires 0 <= s && 0 <= t && s in slots && t in slots
    ensures Val(Sub(Slot(s), Slot(t)), slots) == Some(slots[s] - slots[t]) && Cost(Sub(Slot(s), Slot(t))) == 3
  {
  }

  lemma NextVal(slots: map<int, int>, s: int)
    requires 0 <= s && s in slots
    ensures Val(Add(Slot(s), Const(1)), slots) == Some(slots[s] + 1) && Cost(Add(Slot(s), Const(1))) == 3
  {
  }

  lemma SemAssign(g: set<int>, s: int, e: Expr, rest: Block, m: Mem, gas: nat)
    requires Val(e, m.slots).Some? && Cost(e) + 1 <= gas && 0 <= s && s in g
    ensures Sem(g, Then(Assign(s, e), rest), m, gas)
         == Sem(g, rest, m.(slots := m.slots[s := Val(e, m.slots).value]), gas - Cost(e) - 1)
  {
    hide Val;
  }

  lemma SemIf(g: set<int>, e: Expr, p: Block, z: Block, mi: Block, rest: Block, m: Mem, gas: nat)
    requires Val(e, m.slots).Some? && Cost(e) + 1 <= gas
    ensures var v := Val(e, m.slots).value;
            var r := Sem(g, if v > 0 then p else if v == 0 then z else mi, m, gas - Cost(e) - 1);
            Sem(g, Then(If(e, p, z, mi, 3), rest), m, gas) ==
            if r.None? || r.value.2.Left? then r else Sem(g, rest, r.value.0, r.value.1)
  {
    hide Val;
    var v := Val(e, m.slots).value;
    var r := Sem(g, if v > 0 then p else if v == 0 then z else mi, m, gas - Cost(e) - 1);
    assert SemCmd(g, If(e, p, z, mi, 3), m, gas) == r;
  }

  lemma SemDone(g: set<int>, m: Mem, gas: nat)
    ensures Sem(g, Done, m, gas) == Some((m, gas, Fell))
  {
  }

  lemma SemBreak(g: set<int>, m: Mem, gas: nat)
    requires 1 <= gas
    ensures Sem(g, Then(Breaks, Done), m, gas) == Some((m, gas - 1, Left))
  {
  }

  lemma PlusOne(e: Expr, slots: map<int, int>)
    requires Val(e, slots).Some?
    ensures Val(Add(e, Const(1)), slots) == Some(Val(e, slots).value + 1) && Cost(Add(e, Const(1))) == Cost(e) + 2
  {
  }

  lemma SlotVal(slots: map<int, int>, s: int)
    requires 0 <= s && s in slots
    ensures Val(Slot(s), slots) == Some(slots[s]) && Cost(Slot(s)) == 1
  {
  }

  lemma ConstVal(slots: map<int, int>, n: int)
    ensures Val(Const(n), slots) == Some(n) && Cost(Const(n)) == 1
  {
  }

  lemma SemLoopVerb(g: set<int>, body: Block, rest: Block, m: Mem, gas: nat)
    requires 1 <= gas && SemLoop(g, body, m, gas - 1).Some?
    ensures var r := SemLoop(g, body, m, gas - 1).value;
            Sem(g, Then(Loops(body), rest), m, gas) == Sem(g, rest, r.0, r.1)
  {
    hide SemLoop;
    assert SemCmd(g, Loops(body), m, gas) == SemLoop(g, body, m, gas - 1);
  }

  lemma SemPut(g: set<int>, x: Expr, e: Expr, rest: Block, m: Mem, gas: nat)
    requires Val(e, m.slots).Some? && Val(x, m.slots).Some? && Cost(e) + Cost(x) + 1 <= gas
    requires 0 <= Val(x, m.slots).value && Val(x, m.slots).value in g
    ensures Sem(g, Then(Put(x, e), rest), m, gas)
         == Sem(g, rest, m.(slots := m.slots[Val(x, m.slots).value := Val(e, m.slots).value]),
            gas - Cost(e) - Cost(x) - 1)
  {
    hide Val;
  }

  lemma IndexVal(slots: map<int, int>, base: int, s: int)
    requires 0 <= s && s in slots
    ensures Val(Add(Const(base), Slot(s)), slots) == Some(base + slots[s]) && Cost(Add(Const(base), Slot(s))) == 3
  {
  }

  /** r fell through with at least left budget and these slots. */
  ghost predicate Ok(r: Ran, left: int, out: seq<int>) {
    r.Some? && r.value.2.Fell? && r.value.1 >= left && r.value.0.out == out
  }

  lemma SemEmits(g: set<int>, e: Expr, rest: Block, m: Mem, gas: nat)
    requires Val(e, m.slots).Some? && Cost(e) + 1 <= gas
    ensures Sem(g, Then(Emits(e), rest), m, gas)
         == Sem(g, rest, m.(out := m.out + [Val(e, m.slots).value]), gas - Cost(e) - 1)
  {
    hide Val;
  }

  lemma SemIfTwo(g: set<int>, e: Expr, p: Block, z: Block, rest: Block, m: Mem, gas: nat)
    requires Val(e, m.slots).Some? && Cost(e) + 1 <= gas
    ensures var v := Val(e, m.slots).value;
            var r :=
              if v < 0 then Some((m, gas - Cost(e) - 1, Fell))
              else Sem(g, if v > 0 then p else z, m, gas - Cost(e) - 1);
            Sem(g, Then(If(e, p, z, Done, 2), rest), m, gas) ==
            if r.None? || r.value.2.Left? then r else Sem(g, rest, r.value.0, r.value.1)
  {
    hide Val;
    var v := Val(e, m.slots).value;
    var r := if v < 0 then Some((m, gas - Cost(e) - 1, Fell)) else Sem(g, if v > 0 then p else z, m, gas - Cost(e) - 1);
    assert SemCmd(g, If(e, p, z, Done, 2), m, gas) == r;
  }
}
