/** Structured programs over the walker: expressions that push one value and
    commands that consume it, as the program builders of python/griddb_interp.py
    write them (num, verb, region, program). Sem is their meaning on slots;
    the walker, given the flat tokens and the same budget, does the same. */
module Structured {
  import opened Lexicon
  import opened Interp

  datatype Expr =
    | Const(n: int)
    | Slot(s: int)            // READ
    | Add(a: Expr, b: Expr)
    | Sub(a: Expr, b: Expr)
    | At(index: Expr)         // LOADX

  datatype Cmd =
    | Assign(slot: int, e: Expr)                            // STORE
    | Put(index: Expr, e: Expr)                             // STOREX
    | Emits(e: Expr)
    | If(e: Expr, plus: Block, zero: Block, minus: Block, arms: nat)  // the first 1..3 arms are present
    | Loops(body: Block)
    | Breaks

  datatype Block = Done | Then(c: Cmd, rest: Block)

  // ----- as tokens -----

  function ExprToks(e: Expr): seq<Token> {
    match e
    case Const(n) => EncodeInteger(n)
    case Slot(s) => VerbArg(READ, s)
    case Add(a, b) => ExprToks(a) + ExprToks(b) + [PLUS]
    case Sub(a, b) => ExprToks(a) + ExprToks(b) + [MINUS]
    case At(i) => ExprToks(i) + Verb(LOADX)
  }

  function CmdToks(c: Cmd): seq<Token> {
    match c
    case Assign(slot, e) => ExprToks(e) + VerbArg(STORE, slot)
    case Put(i, e) => ExprToks(e) + ExprToks(i) + Verb(STOREX)
    case Emits(e) => ExprToks(e) + [EMIT]
    case If(e, p, z, m, k) => ExprToks(e) + Verb(IF) + ArmToks(Flat(p), Flat(z), Flat(m), k)
    case Loops(b) => Verb(LOOP) + Region(Flat(b))
    case Breaks => Verb(BREAK)
  }

  function ArmToks(p: seq<Token>, z: seq<Token>, m: seq<Token>, k: nat): seq<Token> {
    Region(p) + (if k >= 2 then Region(z) else []) + (if k >= 3 then Region(m) else [])
  }

  function Flat(b: Block): seq<Token> {
    match b
    case Done => []
    case Then(c, rest) => CmdToks(c) + Flat(rest)
  }

  predicate ProperCmd(c: Cmd) {
    match c
    case If(_, p, z, m, k) => 1 <= k <= 3 && Proper(p) && Proper(z) && Proper(m)
    case Loops(b) => Proper(b)
    case _ => true
  }

  predicate Proper(b: Block) {
    b.Then? ==> ProperCmd(b.c) && Proper(b.rest)
  }

  // ----- meaning -----

  /** Slots and output; granted says which slots may be written. */
  datatype Mem = Mem(slots: map<int, int>, out: seq<int>)

  datatype Signal = Fell | Left   // fell through, or left by BREAK

  function Val(e: Expr, slots: map<int, int>): Option<int> {
    match e
    case Const(n) => Some(n)
    case Slot(s) => if 0 <= s && s in slots then Some(slots[s]) else None
    case Add(a, b) =>
      var x, y := Val(a, slots), Val(b, slots);
      if x.Some? && y.Some? then Some(x.value + y.value) else None
    case Sub(a, b) =>
      var x, y := Val(a, slots), Val(b, slots);
      if x.Some? && y.Some? then Some(x.value - y.value) else None
    case At(i) =>
      var x := Val(i, slots);
      if x.Some? && 0 <= x.value then Some(if x.value in slots then slots[x.value] else 0) else None
  }

  /** Steps an expression takes. */
  function Cost(e: Expr): nat {
    match e
    case Const(_) | Slot(_) => 1
    case Add(a, b) => Cost(a) + Cost(b) + 1
    case Sub(a, b) => Cost(a) + Cost(b) + 1
    case At(i) => Cost(i) + 1
  }

  type Ran = Option<(Mem, nat, Signal)>

  /** The block's effect under a budget, with the budget left; None when it
      runs out, reads an unset slot or writes an ungranted one. */
  function Sem(granted: set<int>, b: Block, m: Mem, gas: nat): (r: Ran)
    ensures r.Some? ==> r.value.1 <= gas
    decreases gas, b, 1
  {
    match b
    case Done => Some((m, gas, Fell))
    case Then(c, rest) =>
      var r := SemCmd(granted, c, m, gas);
      if r.None? || r.value.2.Left? then r else Sem(granted, rest, r.value.0, r.value.1)
  }

  function SemCmd(granted: set<int>, c: Cmd, m: Mem, gas: nat): (r: Ran)
    ensures r.Some? ==> r.value.1 < gas
    decreases gas, c, 0
  {
    match c
    case Assign(s, e) =>
      var v := Val(e, m.slots);
      if v.None? || gas < Cost(e) + 1 || s < 0 || s !in granted then None
      else Some((m.(slots := m.slots[s := v.value]), gas - Cost(e) - 1, Fell))
    case Put(i, e) =>
      var v, x := Val(e, m.slots), Val(i, m.slots);
      if v.None? || x.None? || gas < Cost(e) + Cost(i) + 1 || x.value < 0 || x.value !in granted then None
      else Some((m.(slots := m.slots[x.value := v.value]), gas - Cost(e) - Cost(i) - 1, Fell))
    case Emits(e) =>
      var v := Val(e, m.slots);
      if v.None? || gas < Cost(e) + 1 then None
      else Some((m.(out := m.out + [v.value]), gas - Cost(e) - 1, Fell))
    case If(e, p, z, mi, k) =>
      var v := Val(e, m.slots);
      if v.None? || gas < Cost(e) + 1 then None
      else
        var g := gas - Cost(e) - 1;
        var arm := ArmIndex(v.value);
        if arm >= k then Some((m, g, Fell))
        else if arm == 0 then Sem(granted, p, m, g)
        else if arm == 1 then Sem(granted, z, m, g)
        else Sem(granted, mi, m, g)
    case Loops(b) => if gas < 1 then None else SemLoop(granted, b, m, gas - 1)
    case Breaks => if gas < 1 then None else Some((m, gas - 1, Left))
  }

  function SemLoop(granted: set<int>, body: Block, m: Mem, gas: nat): (r: Ran)
    ensures r.Some? ==> r.value.1 <= gas && r.value.2.Fell?
    decreases gas, body, 2
  {
    if gas < 1 then None
    else
      var r := Sem(granted, body, m, gas - 1);
      if r.None? then None
      else if r.value.2.Left? then Some((r.value.0, r.value.1, Fell))
      else SemLoop(granted, body, r.value.0, r.value.1)
  }

  // ----- tokens in place -----

  ghost predicate Here(toks: seq<Token>, p: nat, f: seq<Token>) {
    p + |f| <= |toks| && toks[p..p + |f|] == f
  }

  lemma HereSplit(toks: seq<Token>, p: nat, f: seq<Token>, g: seq<Token>)
    requires Here(toks, p, f + g)
    ensures Here(toks, p, f) && Here(toks, p + |f|, g)
  {
    assert (f + g)[..|f|] == f && (f + g)[|f|..] == g;
    assert toks[p..p + |f|] == toks[p..p + |f + g|][..|f|];
    assert toks[p + |f|..p + |f| + |g|] == toks[p..p + |f + g|][|f|..];
  }

  lemma HereAt(toks: seq<Token>, p: nat, f: seq<Token>, k: nat)
    requires Here(toks, p, f) && k < |f|
    ensures toks[p + k] == f[k]
  {
    assert toks[p..p + |f|][k] == f[k];
  }

  // ----- parentheses -----

  predicate NoParens(f: seq<Token>) {
    forall k :: 0 <= k < |f| ==> f[k] != LPAREN && f[k] != RPAREN
  }

  lemma {:induction false} SignDigitsNoParens(ds: seq<Digit>, neg: bool)
    ensures NoParens(SignDigits(ds, neg))
    decreases |ds|
  {
    if ds != [] {
      SignDigitsNoParens(ds[1..], neg);
    }
  }

  lemma IntNoParens(v: int)
    ensures NoParens(EncodeInteger(v))
  {
    SignDigitsNoParens(Digits(Abs(v)), v < 0);
  }

  lemma VerbNoParens(cmd: Token, arg: int)
    requires cmd != LPAREN && cmd != RPAREN
    ensures NoParens(Verb(cmd)) && NoParens(VerbArg(cmd, arg))
  {
    IntNoParens(arg);
  }

  lemma NoParensAppend(f: seq<Token>, g: seq<Token>)
    requires NoParens(f) && NoParens(g)
    ensures NoParens(f + g)
  {
  }

  lemma {:induction false} ExprNoParens(e: Expr)
    ensures NoParens(ExprToks(e))
  {
    match e
    case Const(n) => IntNoParens(n);
    case Slot(s) => VerbNoParens(READ, s);
    case Add(a, b) => ExprNoParens(a); ExprNoParens(b);
    case Sub(a, b) => ExprNoParens(a); ExprNoParens(b);
    case At(i) => ExprNoParens(i); VerbNoParens(LOADX, 0);
  }

  lemma {:induction false} MatchSkips(toks: seq<Token>, p: nat, end: nat, f: seq<Token>, depth: int)
    requires end <= |toks| && Here(toks, p, f) && p + |f| <= end && NoParens(f)
    ensures Match(toks, p, end, depth) == Match(toks, p + |f|, end, depth)
    decreases |f|
  {
    if f != [] {
      HereAt(toks, p, f, 0);
      assert f == f[..1] + f[1..];
      HereSplit(toks, p, f[..1], f[1..]);
      MatchSkips(toks, p + 1, end, f[1..], depth);
    }
  }

  /** The balanced-paren skip passes over a whole block without noticing. */
  lemma {:induction false} MatchPastBlock(toks: seq<Token>, p: nat, end: nat, b: Block, depth: int)
    requires end <= |toks| && Here(toks, p, Flat(b)) && p + |Flat(b)| <= end && depth >= 1
    ensures Match(toks, p, end, depth) == Match(toks, p + |Flat(b)|, end, depth)
    decreases b, 1
  {
    if b.Then? {
      HereSplit(toks, p, CmdToks(b.c), Flat(b.rest));
      MatchPastCmd(toks, p, end, b.c, depth);
      MatchPastBlock(toks, p + |CmdToks(b.c)|, end, b.rest, depth);
    }
  }

  lemma {:induction false} MatchPastRegion(toks: seq<Token>, p: nat, end: nat, b: Block, depth: int)
    requires end <= |toks| && Here(toks, p, Region(Flat(b))) && p + |Region(Flat(b))| <= end && depth >= 0
    ensures depth >= 1 ==> Match(toks, p, end, depth) == Match(toks, p + |Region(Flat(b))|, end, depth)
    ensures depth == 0 ==> Match(toks, p, end, depth) == Some(p + |Flat(b)| + 1)
    ensures toks[p] == LPAREN && Here(toks, p + 1, Flat(b)) && toks[p + |Flat(b)| + 1] == RPAREN
    decreases b, 2
  {
    hide Match;
    var f := Flat(b);
    RegionParts(toks, p, f);
    MatchOpens(toks, p, end, depth);
    MatchPastBlock(toks, p + 1, end, b, depth + 1);
    MatchCloses(toks, p + 1 + |f|, end, depth + 1);
  }

  lemma RegionParts(toks: seq<Token>, p: nat, f: seq<Token>)
    requires Here(toks, p, Region(f))
    ensures |Region(f)| == |f| + 2
    ensures toks[p] == LPAREN && Here(toks, p + 1, f) && toks[p + |f| + 1] == RPAREN
  {
    assert Region(f) == [LPAREN] + (f + [RPAREN]);
    HereSplit(toks, p, [LPAREN], f + [RPAREN]);
    HereSplit(toks, p + 1, f, [RPAREN]);
    HereAt(toks, p, [LPAREN], 0);
    HereAt(toks, p + 1 + |f|, [RPAREN], 0);
  }

  lemma MatchOpens(toks: seq<Token>, p: nat, end: nat, depth: int)
    requires p < end <= |toks| && toks[p] == LPAREN
    ensures Match(toks, p, end, depth) == Match(toks, p + 1, end, depth + 1)
  {
  }

  lemma MatchCloses(toks: seq<Token>, p: nat, end: nat, depth: int)
    requires p < end <= |toks| && toks[p] == RPAREN
    ensures Match(toks, p, end, depth) == if depth == 1 then Some(p) else Match(toks, p + 1, end, depth - 1)
  {
  }

  lemma {:induction false} MatchPastCmd(toks: seq<Token>, p: nat, end: nat, c: Cmd, depth: int)
    requires end <= |toks| && Here(toks, p, CmdToks(c)) && p + |CmdToks(c)| <= end && depth >= 1
    ensures Match(toks, p, end, depth) == Match(toks, p + |CmdToks(c)|, end, depth)
    decreases c, 3
  {
    hide Match, NoParens, VerbArg, Verb, ExprToks, Region, Here;
    match c
    case Assign(s, e) =>
      ExprNoParens(e); VerbNoParens(STORE, s);
      NoParensAppend(ExprToks(e), VerbArg(STORE, s));
      MatchSkips(toks, p, end, CmdToks(c), depth);
    case Put(i, e) =>
      ExprNoParens(e); ExprNoParens(i); VerbNoParens(STOREX, 0);
      NoParensAppend(ExprToks(e), ExprToks(i));
      NoParensAppend(ExprToks(e) + ExprToks(i), Verb(STOREX));
      MatchSkips(toks, p, end, CmdToks(c), depth);
    case Emits(e) =>
      ExprNoParens(e);
      EmitNoParens();
      NoParensAppend(ExprToks(e), [EMIT]);
      MatchSkips(toks, p, end, CmdToks(c), depth);
    case Breaks =>
      VerbNoParens(BREAK, 0);
      MatchSkips(toks, p, end, CmdToks(c), depth);
    case Loops(b) =>
      VerbNoParens(LOOP, 0);
      HereSplit(toks, p, Verb(LOOP), Region(Flat(b)));
      MatchSkips(toks, p, end, Verb(LOOP), depth);
      MatchPastRegion(toks, p + |Verb(LOOP)|, end, b, depth);
    case If(e, pl, z, m, k) =>
      var h := ExprToks(e) + Verb(IF);
      ExprNoParens(e); VerbNoParens(IF, 0);
      NoParensAppend(ExprToks(e), Verb(IF));
      HereSplit(toks, p, h, ArmToks(Flat(pl), Flat(z), Flat(m), k));
      MatchSkips(toks, p, end, h, depth);
      MatchPastArms(toks, p + |h|, end, c, depth);
  }

  lemma EmitNoParens()
    ensures NoParens([EMIT])
  {
  }

  lemma {:induction false} MatchPastArms(toks: seq<Token>, p: nat, end: nat, c: Cmd, depth: int)
    requires c.If?
    requires var f := ArmToks(Flat(c.plus), Flat(c.zero), Flat(c.minus), c.arms);
             end <= |toks| && Here(toks, p, f) && p + |f| <= end && depth >= 1
    ensures Match(toks, p, end, depth)
            == Match(toks, p + |ArmToks(Flat(c.plus), Flat(c.zero), Flat(c.minus), c.arms)|, end, depth)
    decreases c, 2
  {
    hide Match, Region, Here, Flat;
    var k := c.arms;
    var r1 := Region(Flat(c.plus));
    var r2 := if k >= 2 then Region(Flat(c.zero)) else [];
    var r3 := if k >= 3 then Region(Flat(c.minus)) else [];
    assert ArmToks(Flat(c.plus), Flat(c.zero), Flat(c.minus), k) == r1 + r2 + r3;
    var q := p + |r1|;
    ThreeHere(toks, p, r1, r2, r3);
    hide ArmToks;
    MatchPastRegion(toks, p, end, c.plus, depth);
    if k >= 2 {
      MatchPastRegion(toks, q, end, c.zero, depth);
    }
    if k >= 3 {
      MatchPastRegion(toks, q + |r2|, end, c.minus, depth);
    }
  }

  lemma ThreeHere(toks: seq<Token>, p: nat, f: seq<Token>, g: seq<Token>, h: seq<Token>)
    requires Here(toks, p, f + g + h)
    ensures |f + g + h| == |f| + |g| + |h|
    ensures Here(toks, p, f) && Here(toks, p + |f|, g) && Here(toks, p + |f| + |g|, h)
  {
    hide Here;
    HereSplit(toks, p, f + g, h);
    HereSplit(toks, p, f, g);
  }

  // ----- single steps of the walk -----

  lemma WalkStep(env: Env, toks: seq<Token>, p: nat, end: nat, st: State, q: nat, st': State)
    requires p < end <= |toks| && st.steps < env.maxSteps
    requires ExecOne(env, toks, p, end, Tick(st)) == (st', Fall(q))
    ensures Exec(env, toks, p, end, st) == Exec(env, toks, q, end, st')
  {
    hide ExecOne;
  }

  lemma VerbHere(toks: seq<Token>, p: nat, cmd: Token)
    requires Here(toks, p, Verb(cmd))
    ensures p + 9 <= |toks| && toks[p] == START && IsVerb(toks, p) && toks[p + 4] == cmd
  {
    HereAt(toks, p, Verb(cmd), 0);
    HereAt(toks, p, Verb(cmd), 4);
    assert toks[p..p + 4] == toks[p..p + 9][..4];
  }

  lemma PlainVerb(env: Env, toks: seq<Token>, p: nat, end: nat, cmd: Token, s: State)
    requires end <= |toks| && Here(toks, p, Verb(cmd)) && p + 9 <= end && !HasArg(cmd)
    ensures ExecOne(env, toks, p, end, s) == Dispatch(env, cmd, 0, toks, p + 9, end, s)
  {
    hide Dispatch;
    VerbHere(toks, p, cmd);
  }

  lemma ArgVerb(env: Env, toks: seq<Token>, p: nat, end: nat, cmd: Token, arg: int, s: State)
    requires end <= |toks| && Here(toks, p, VerbArg(cmd, arg)) && p + |VerbArg(cmd, arg)| <= end && HasArg(cmd)
    ensures ExecOne(env, toks, p, end, s) == Dispatch(env, cmd, arg, toks, p + |VerbArg(cmd, arg)|, end, s)
  {
    hide Dispatch, EncodeInteger, ReadInt, Verb;
    VerbLength(cmd);
    HereSplit(toks, p, Verb(cmd), EncodeInteger(arg));
    VerbHere(toks, p, cmd);
    ReadEncoded(toks, p + 9, end, arg);
  }

  lemma EncodedStarts(v: int)
    ensures |EncodeInteger(v)| >= 2
    ensures IsDigit(EncodeInteger(v)[0]) || IsNeg(EncodeInteger(v)[0])
  {
    var ds := Digits(Abs(v));
    assert EncodeInteger(v)[0] == SignDigits(ds, v < 0)[0] == SignDigit(ds[0], v < 0);
  }

  lemma NumberWalks(env: Env, toks: seq<Token>, p: nat, end: nat, v: int, st: State)
    requires end <= |toks| && Here(toks, p, EncodeInteger(v)) && p + |EncodeInteger(v)| <= end
             && st.steps < env.maxSteps
    ensures Exec(env, toks, p, end, st) == Exec(env, toks, p + |EncodeInteger(v)|, end, Push(Tick(st), v))
  {
    hide EncodeInteger, ReadInt;
    EncodedStarts(v);
    HereAt(toks, p, EncodeInteger(v), 0);
    ReadEncoded(toks, p, end, v);
    WalkStep(env, toks, p, end, st, p + |EncodeInteger(v)|, Push(Tick(st), v));
  }

  lemma SlotReads(slots: map<int, int>, s: int)
    requires s in slots
    ensures s in GridOf(slots) && ParseInts(GridOf(slots)[s]) == [slots[s]]
  {
    StoredReadsBack(slots[s]);
  }

  // ----- expressions push their value -----

  ghost predicate Pushed(env: Env, st: State, st': State, v: int, cost: nat) {
    st'.stack == st.stack + [v] && st'.grid == st.grid && st'.output == st.output && st'.steps == st.steps + cost
  }

  lemma {:induction false} ExprWalks(env: Env, toks: seq<Token>, p: nat, end: nat, e: Expr, slots: map<int, int>,
      st: State)
    returns (st': State)
    requires end <= |toks| && Here(toks, p, ExprToks(e)) && p + |ExprToks(e)| <= end
    requires env.attached && st.grid == GridOf(slots) && Val(e, slots).Some? && st.steps + Cost(e) <= env.maxSteps
    ensures Exec(env, toks, p, end, st) == Exec(env, toks, p + |ExprToks(e)|, end, st')
    ensures Pushed(env, st, st', Val(e, slots).value, Cost(e))
    decreases e
  {
    hide Exec, ExecOne, Here, EncodeInteger, VerbArg, Verb, GridOf, ParseInts, Dispatch;
    match e
    case Const(n) =>
      NumberWalks(env, toks, p, end, n, st);
      st' := Push(Tick(st), n);
    case Slot(s) =>
      st' := ReadWalks(env, toks, p, end, s, slots, st);
    case Add(a, b) =>
      st' := BinaryWalks(env, toks, p, end, a, b, PLUS, slots, st);
    case Sub(a, b) =>
      st' := BinaryWalks(env, toks, p, end, a, b, MINUS, slots, st);
    case At(i) =>
      VerbLength(LOADX);
      HereSplit(toks, p, ExprToks(i), Verb(LOADX));
      var s1 := ExprWalks(env, toks, p, end, i, slots, st);
      st' := LoadWalks(env, toks, p + |ExprToks(i)|, end, Val(i, slots).value, slots, s1);
  }

  lemma VerbLength(cmd: Token)
    ensures |Verb(cmd)| == 9
  {
  }

  lemma ReadWalks(env: Env, toks: seq<Token>, p: nat, end: nat, s: int, slots: map<int, int>, st: State)
      returns (st': State)
    requires end <= |toks| && Here(toks, p, VerbArg(READ, s)) && p + |VerbArg(READ, s)| <= end
    requires env.attached && st.grid == GridOf(slots) && 0 <= s && s in slots && st.steps < env.maxSteps
    ensures Exec(env, toks, p, end, st) == Exec(env, toks, p + |VerbArg(READ, s)|, end, st')
    ensures Pushed(env, st, st', slots[s], 1)
  {
    hide Exec, ExecOne, Here, VerbArg, ParseInts, GridOf;
    ArgVerb(env, toks, p, end, READ, s, Tick(st));
    SlotReads(slots, s);
    VerbArgLength(READ, s);
    st' := Push(Tick(st), slots[s]);
    WalkStep(env, toks, p, end, st, p + |VerbArg(READ, s)|, st');
  }

  lemma VerbArgLength(cmd: Token, arg: int)
    ensures |VerbArg(cmd, arg)| > 9
  {
    EncodedStarts(arg);
  }

  lemma LoadWalks(env: Env, toks: seq<Token>, p: nat, end: nat, x: int, slots: map<int, int>, st: State)
      returns (st': State)
    requires end <= |toks| && Here(toks, p, Verb(LOADX)) && p + 9 <= end
    requires env.attached && st.grid == GridOf(slots) && 0 <= x && st.steps < env.maxSteps
    requires st.stack != [] && Top(st) == x
    ensures Exec(env, toks, p, end, st) == Exec(env, toks, p + 9, end, st')
    ensures st'.stack == st.stack[..|st.stack| - 1] + [if x in slots then slots[x] else 0]
    ensures st'.grid == st.grid && st'.output == st.output && st'.steps == st.steps + 1
  {
    hide Exec, ExecOne, Here, Verb, ParseInts;
    PlainVerb(env, toks, p, end, LOADX, Tick(st));
    if x in slots {
      SlotReads(slots, x);
    }
    st' := Push(Pop(Tick(st)), if x in slots then slots[x] else 0);
    WalkStep(env, toks, p, end, st, p + 9, st');
  }

  lemma {:induction false} BinaryWalks(env: Env, toks: seq<Token>, p: nat, end: nat, a: Expr, b: Expr, op: Token,
      slots: map<int, int>, st: State)
    returns (st': State)
    requires op == PLUS || op == MINUS
    requires end <= |toks| && Here(toks, p, ExprToks(a) + ExprToks(b) + [op])
             && p + |ExprToks(a) + ExprToks(b) + [op]| <= end
    requires env.attached && st.grid == GridOf(slots) && Val(a, slots).Some? && Val(b, slots).Some?
    requires st.steps + Cost(a) + Cost(b) + 1 <= env.maxSteps
    ensures Exec(env, toks, p, end, st) == Exec(env, toks, p + |ExprToks(a) + ExprToks(b) + [op]|, end, st')
    ensures Pushed(env, st, st', Apply(op, Val(a, slots).value, Val(b, slots).value), Cost(a) + Cost(b) + 1)
    decreases if op == PLUS then Add(a, b) else Sub(a, b), 0
  {
    hide Exec, ExecOne, Here, ExprToks, GridOf;
    var ta, tb := ExprToks(a), ExprToks(b);
    HereSplit(toks, p, ta + tb, [op]);
    HereSplit(toks, p, ta, tb);
    var s1 := ExprWalks(env, toks, p, end, a, slots, st);
    var s2 := ExprWalks(env, toks, p + |ta|, end, b, slots, s1);
    var q := p + |ta| + |tb|;
    assert p + |ta + tb| == q;
    st' := OpWalks(env, toks, q, end, op, Val(a, slots).value, Val(b, slots).value, st.stack, s2);
  }

  lemma OpWalks(env: Env, toks: seq<Token>, q: nat, end: nat, op: Token, va: int, vb: int, base: seq<int>, st: State)
      returns (st': State)
    requires op == PLUS || op == MINUS
    requires q < end <= |toks| && Here(toks, q, [op]) && st.steps < env.maxSteps && st.stack == base + [va] + [vb]
    ensures Exec(env, toks, q, end, st) == Exec(env, toks, q + 1, end, st')
    ensures st'.stack == base + [Apply(op, va, vb)] && st'.grid == st.grid && st'.output == st.output
            && st'.steps == st.steps + 1
  {
    HereAt(toks, q, [op], 0);
    var s := Tick(st);
    assert Pop(s).stack == base + [va] && Pop(Pop(s)).stack == base;
    st' := Push(Pop(Pop(s)), Apply(op, va, vb));
    WalkStep(env, toks, q, end, st, q + 1, st');
  }

  // ----- commands and blocks -----

  function Grants(env: Env): set<int> {
    set s | s in env.grants && env.grants[s] == env.holder
  }

  ghost predicate Shows(env: Env, m: Mem, st: State) {
    st.grid == GridOf(m.slots) && st.output == m.out && st.steps <= env.maxSteps
  }

  function Gas(env: Env, st: State): nat
    requires st.steps <= env.maxSteps
  {
    env.maxSteps - st.steps
  }

  /** The walk that stood at p with st has run the code up to q and shows r. */
  ghost predicate Walked(env: Env, toks: seq<Token>, p: nat, q: nat, end: nat, st: State, r: (Mem, nat, Signal),
      st': State)
    requires end <= |toks|
  {
    && Shows(env, r.0, st') && Gas(env, st') == r.1 && st'.stack == st.stack
    && (r.2.Fell? ==> Exec(env, toks, p, end, st) == Exec(env, toks, q, end, st'))
    && (r.2.Left? ==> Exec(env, toks, p, end, st) == (st', Broke))
  }

  predicate Follows(toks: seq<Token>, q: nat, end: nat)
    requires end <= |toks|
  {
    q == end || (q < end && toks[q] != LPAREN)
  }

  lemma StoredGrid(slots: map<int, int>, s: int, v: int)
    ensures GridOf(slots)[s := EncodeInteger(v) + [RECORD]] == GridOf(slots[s := v])
  {
  }

  lemma StoreWalks(env: Env, toks: seq<Token>, p: nat, end: nat, slot: int, v: int, m: Mem, st0: State, st: State)
      returns (st': State)
    requires end <= |toks| && Here(toks, p, VerbArg(STORE, slot)) && p + |VerbArg(STORE, slot)| <= end
    requires env.attached && Shows(env, m, st) && st.steps < env.maxSteps && slot >= 0 && slot in Grants(env)
    requires st.stack == st0.stack + [v]
    ensures Exec(env, toks, p, end, st) == Exec(env, toks, p + |VerbArg(STORE, slot)|, end, st')
    ensures Shows(env, m.(slots := m.slots[slot := v]), st') && st'.stack == st0.stack && st'.steps == st.steps + 1
  {
    hide Exec, ExecOne, Here, VerbArg, EncodeInteger, GridOf;
    ArgVerb(env, toks, p, end, STORE, slot, Tick(st));
    StoredGrid(m.slots, slot, v);
    VerbArgLength(STORE, slot);
    var s := Pop(Tick(st));
    assert s.stack == st0.stack;
    st' := s.(grid := s.grid[slot := EncodeInteger(v) + [RECORD]]);
    WalkStep(env, toks, p, end, st, p + |VerbArg(STORE, slot)|, st');
  }

  lemma StorexWalks(env: Env, toks: seq<Token>, p: nat, end: nat, slot: int, v: int, m: Mem, st0: State, st: State)
      returns (st': State)
    requires end <= |toks| && Here(toks, p, Verb(STOREX)) && p + 9 <= end
    requires env.attached && Shows(env, m, st) && st.steps < env.maxSteps && slot >= 0 && slot in Grants(env)
    requires st.stack == st0.stack + [v] + [slot]
    ensures Exec(env, toks, p, end, st) == Exec(env, toks, p + 9, end, st')
    ensures Shows(env, m.(slots := m.slots[slot := v]), st') && st'.stack == st0.stack && st'.steps == st.steps + 1
  {
    hide Exec, ExecOne, Here, Verb, EncodeInteger, GridOf;
    PlainVerb(env, toks, p, end, STOREX, Tick(st));
    StoredGrid(m.slots, slot, v);
    var s1 := Pop(Tick(st));
    var s := Pop(s1);
    assert s1.stack == st0.stack + [v] && s.stack == st0.stack;
    st' := s.(grid := s.grid[slot := EncodeInteger(v) + [RECORD]]);
    WalkStep(env, toks, p, end, st, p + 9, st');
  }

  lemma EmitWalks(env: Env, toks: seq<Token>, p: nat, end: nat, v: int, m: Mem, st0: State, st: State)
      returns (st': State)
    requires p < end <= |toks| && Here(toks, p, [EMIT])
    requires Shows(env, m, st) && st.steps < env.maxSteps && st.stack == st0.stack + [v]
    ensures Exec(env, toks, p, end, st) == Exec(env, toks, p + 1, end, st')
    ensures Shows(env, m.(out := m.out + [v]), st') && st'.stack == st0.stack && st'.steps == st.steps + 1
  {
    hide Exec;
    HereAt(toks, p, [EMIT], 0);
    var s := Tick(st);
    assert Pop(s).stack == st0.stack;
    st' := Output(Pop(s), v);
    WalkStep(env, toks, p, end, st, p + 1, st');
  }

  lemma CmdStarts(c: Cmd)
    ensures CmdToks(c) != [] && CmdToks(c)[0] != LPAREN
  {
    match c
    case Assign(_, e) => ExprStarts(e);
    case Put(_, e) => ExprStarts(e);
    case Emits(e) => ExprStarts(e);
    case If(e, _, _, _, _) => ExprStarts(e);
    case Loops(_) =>
    case Breaks =>
  }

  lemma {:induction false} ExprStarts(e: Expr)
    ensures ExprToks(e) != [] && ExprToks(e)[0] != LPAREN
  {
    match e
    case Const(n) => EncodedStarts(n);
    case Slot(_) =>
    case Add(a, _) => ExprStarts(a);
    case Sub(a, _) => ExprStarts(a);
    case At(i) => ExprStarts(i);
  }

  lemma BlockFollows(toks: seq<Token>, p: nat, end: nat, b: Block)
    requires end <= |toks| && Here(toks, p, Flat(b)) && p + |Flat(b)| <= end && Follows(toks, p + |Flat(b)|, end)
    ensures Follows(toks, p, end)
  {
    if b.Then? {
      CmdStarts(b.c);
      assert Flat(b)[0] == CmdToks(b.c)[0];
      HereAt(toks, p, Flat(b), 0);
    }
  }

  /** The walker runs a block's tokens as Sem says, step for step of budget. */
  lemma {:induction false} BlockWalks(env: Env, toks: seq<Token>, p: nat, end: nat, b: Block, m: Mem, st: State)
      returns (st': State)
    requires end <= |toks| && Here(toks, p, Flat(b)) && p + |Flat(b)| <= end && Follows(toks, p + |Flat(b)|, end)
    requires Proper(b) && env.attached && Shows(env, m, st) && Sem(Grants(env), b, m, Gas(env, st)).Some?
    ensures Walked(env, toks, p, p + |Flat(b)|, end, st, Sem(Grants(env), b, m, Gas(env, st)).value, st')
    decreases Gas(env, st), b, 1
  {
    hide Exec, Here, CmdToks, SemCmd, Grants, GridOf, Follows;
    if b.Done? {
      st' := st;
    } else {
      HereSplit(toks, p, CmdToks(b.c), Flat(b.rest));
      BlockFollows(toks, p + |CmdToks(b.c)|, end, b.rest);
      st' := CmdWalks(env, toks, p, end, b.c, m, st);
      var r := SemCmd(Grants(env), b.c, m, Gas(env, st)).value;
      if r.2.Fell? {
        st' := BlockWalks(env, toks, p + |CmdToks(b.c)|, end, b.rest, r.0, st');
      }
    }
  }

  lemma {:induction false} CmdWalks(env: Env, toks: seq<Token>, p: nat, end: nat, c: Cmd, m: Mem, st: State)
      returns (st': State)
    requires end <= |toks| && Here(toks, p, CmdToks(c)) && p + |CmdToks(c)| <= end
             && Follows(toks, p + |CmdToks(c)|, end)
    requires ProperCmd(c) && env.attached && Shows(env, m, st) && SemCmd(Grants(env), c, m, Gas(env, st)).Some?
    ensures Walked(env, toks, p, p + |CmdToks(c)|, end, st, SemCmd(Grants(env), c, m, Gas(env, st)).value, st')
    decreases Gas(env, st), c, 0
  {
    hide Exec, ExecOne, Dispatch, Here, ExprToks, VerbArg, Verb, Grants, GridOf, Follows, Sem, SemLoop, Region, Flat,
         ArmToks, Val;
    match c
    case Assign(s, e) =>
      HereSplit(toks, p, ExprToks(e), VerbArg(STORE, s));
      var s1 := ExprWalks(env, toks, p, end, e, m.slots, st);
      st' := StoreWalks(env, toks, p + |ExprToks(e)|, end, s, Val(e, m.slots).value, m, st, s1);
    case Put(i, e) =>
      var te, ti := ExprToks(e), ExprToks(i);
      HereSplit(toks, p, te + ti, Verb(STOREX));
      HereSplit(toks, p, te, ti);
      VerbLength(STOREX);
      var s1 := ExprWalks(env, toks, p, end, e, m.slots, st);
      var s2 := ExprWalks(env, toks, p + |te|, end, i, m.slots, s1);
      assert p + |te + ti| == p + |te| + |ti|;
      st' := StorexWalks(env, toks, p + |te| + |ti|, end, Val(i, m.slots).value, Val(e, m.slots).value, m, st, s2);
    case Emits(e) =>
      HereSplit(toks, p, ExprToks(e), [EMIT]);
      var s1 := ExprWalks(env, toks, p, end, e, m.slots, st);
      st' := EmitWalks(env, toks, p + |ExprToks(e)|, end, Val(e, m.slots).value, m, st, s1);
    case If(_, _, _, _, _) => st' := IfWalks(env, toks, p, end, c, m, st);
    case Loops(b) => st' := LoopVerbWalks(env, toks, p, end, b, m, st);
    case Breaks =>
      VerbLength(BREAK);
      st' := BreakWalks(env, toks, p, end, m, st);
  }

  lemma BreakWalks(env: Env, toks: seq<Token>, p: nat, end: nat, m: Mem, st: State) returns (st': State)
    requires end <= |toks| && Here(toks, p, Verb(BREAK)) && p + 9 <= end
    requires Shows(env, m, st) && 1 <= Gas(env, st)
    ensures Walked(env, toks, p, p + 9, end, st, (m, Gas(env, st) - 1, Left), st')
  {
    st' := Tick(st);
    PlainVerb(env, toks, p, end, BREAK, st');
  }

  /** The regions an IF finds are its arms, in place. */
  lemma ArmsHere(toks: seq<Token>, p: nat, end: nat, pl: Block, z: Block, mi: Block, k: nat)
    requires 1 <= k <= 3
    requires var f := ArmToks(Flat(pl), Flat(z), Flat(mi), k);
             end <= |toks| && Here(toks, p, f) && p + |f| <= end && Follows(toks, p + |f|, end)
    ensures var f := ArmToks(Flat(pl), Flat(z), Flat(mi), k);
            var r := Arms(toks, p, end, end, 3);
            && r.Some? && |r.value.0| == k && r.value.1 == p + |f|
            && forall j :: 0 <= j < k ==> ArmIs(toks, r.value.0[j], ArmList(pl, z, mi, k)[j])
  {
    hide Match, Here, Flat, Arms, ArmIs, RegionsIn, ArmToks, ArmList, Regions, Follows;
    ArmTokens(pl, z, mi, k);
    ArmsFrom(toks, p, end, ArmList(pl, z, mi, k), 3);
  }

  function ArmList(pl: Block, z: Block, mi: Block, k: nat): (bs: seq<Block>)
    requires 1 <= k <= 3
    ensures |bs| == k
  {
    [pl, z, mi][..k]
  }

  function Regions(bs: seq<Block>): seq<Token> {
    if bs == [] then [] else Region(Flat(bs[0])) + Regions(bs[1..])
  }

  lemma ArmTokens(pl: Block, z: Block, mi: Block, k: nat)
    requires 1 <= k <= 3
    ensures ArmToks(Flat(pl), Flat(z), Flat(mi), k) == Regions(ArmList(pl, z, mi, k))
  {
    hide Flat, Region, Regions;
    if k == 1 {
      assert [pl, z, mi][..1] == [pl];
      RegionsOne(pl);
    } else if k == 2 {
      assert [pl, z, mi][..2] == [pl, z];
      RegionsTwo(pl, z);
    } else {
      assert [pl, z, mi][..3] == [pl, z, mi];
      RegionsThree(pl, z, mi);
    }
  }

  lemma RegionsOne(a: Block)
    ensures Regions([a]) == Region(Flat(a))
  {
    hide Flat, Region;
    assert [a][1..] == [];
  }

  lemma RegionsTwo(a: Block, b: Block)
    ensures Regions([a, b]) == Region(Flat(a)) + Region(Flat(b))
  {
    hide Flat, Region;
    assert [a, b][1..] == [b];
    RegionsOne(b);
  }

  lemma RegionsThree(a: Block, b: Block, c: Block)
    ensures Regions([a, b, c]) == Region(Flat(a)) + Region(Flat(b)) + Region(Flat(c))
  {
    hide Flat, Region;
    assert [a, b, c][1..] == [b, c];
    RegionsTwo(b, c);
  }

  lemma {:induction false} ArmsFrom(toks: seq<Token>, p: nat, end: nat, bs: seq<Block>, max: nat)
    requires end <= |toks| && Here(toks, p, Regions(bs)) && p + |Regions(bs)| <= end
             && Follows(toks, p + |Regions(bs)|, end)
    requires |bs| <= max
    ensures var r := Arms(toks, p, end, end, max);
            && r.Some? && |r.value.0| == |bs| && r.value.1 == p + |Regions(bs)|
            && forall k :: 0 <= k < |bs| ==> ArmIs(toks, r.value.0[k], bs[k])
    decreases |bs|
  {
    hide Match, Here, Flat, Region, Arms, ArmIs, RegionsIn, Follows;
    if bs == [] {
      NoArms(toks, p, end, max);
    } else {
      var r1 := Region(Flat(bs[0]));
      HereSplit(toks, p, r1, Regions(bs[1..]));
      OneArm(toks, p, end, bs[0], max);
      ArmsFrom(toks, p + |r1|, end, bs[1..], max - 1);
      var rest := Arms(toks, p + |r1|, end, end, max - 1).value;
      var r := Arms(toks, p, end, end, max).value;
      assert r.0[1..] == rest.0;
      forall k | 0 <= k < |bs| ensures ArmIs(toks, r.0[k], bs[k]) {
        if k > 0 {
          assert r.0[k] == rest.0[k - 1] && bs[k] == bs[1..][k - 1];
        }
      }
    }
  }

  lemma NoArms(toks: seq<Token>, p: nat, end: nat, max: nat)
    requires end <= |toks| && (max == 0 || Follows(toks, p, end))
    ensures Arms(toks, p, end, end, max) == Some(([], p))
  {
  }

  ghost predicate ArmIs(toks: seq<Token>, arm: (nat, nat), b: Block) {
    arm.1 == arm.0 + |Flat(b)| && Here(toks, arm.0, Flat(b))
  }

  lemma OneArm(toks: seq<Token>, p: nat, end: nat, b: Block, max: nat)
    requires end <= |toks| && Here(toks, p, Region(Flat(b))) && p + |Region(Flat(b))| <= end && max > 0
    ensures p < end && toks[p] == LPAREN && Match(toks, p, end) == Some(p + 1 + |Flat(b)|)
    ensures ArmIs(toks, (p + 1, p + 1 + |Flat(b)|), b) && |Region(Flat(b))| == |Flat(b)| + 2
    ensures var rest := Arms(toks, p + |Region(Flat(b))|, end, end, max - 1);
            Arms(toks, p, end, end, max) ==
            if rest.None? then None else Some(([(p + 1, p + 1 + |Flat(b)|)] + rest.value.0, rest.value.1))
  {
    hide Match, RegionsIn, Here, Region;
    RegionParts(toks, p, Flat(b));
    MatchPastRegion(toks, p, end, b, 0);
  }

  lemma {:induction false} IfWalks(env: Env, toks: seq<Token>, p: nat, end: nat, c: Cmd, m: Mem, st: State)
      returns (st': State)
    requires c.If? && end <= |toks| && Here(toks, p, CmdToks(c)) && p + |CmdToks(c)| <= end
             && Follows(toks, p + |CmdToks(c)|, end)
    requires ProperCmd(c) && env.attached && Shows(env, m, st) && SemCmd(Grants(env), c, m, Gas(env, st)).Some?
    ensures Walked(env, toks, p, p + |CmdToks(c)|, end, st, SemCmd(Grants(env), c, m, Gas(env, st)).value, st')
    decreases Gas(env, st), c, 0, 0
  {
    hide ExecOne, Exec, Dispatch, Here, ExprToks, Verb, Grants, GridOf, Follows, Sem, Flat, ArmToks, Val, Arms, Match,
         RegionsIn;
    var If(e, pl, z, mi, k) := c;
    var te := ExprToks(e);
    var f := ArmToks(Flat(pl), Flat(z), Flat(mi), k);
    HereSplit(toks, p, te + Verb(IF), f);
    HereSplit(toks, p, te, Verb(IF));
    VerbLength(IF);
    var v := Val(e, m.slots).value;
    var s1 := ExprWalks(env, toks, p, end, e, m.slots, st);
    var q := p + |te|;
    assert p + |te + Verb(IF)| == q + 9;
    PlainVerb(env, toks, q, end, IF, Tick(s1));
    ArmsHere(toks, q + 9, end, pl, z, mi, k);
    var regions := Arms(toks, q + 9, end, end, 3).value.0;
    var s2 := Pop(Tick(s1));
    assert s2.stack == st.stack;
    var arm := ArmIndex(v);
    var after := q + 9 + |f|;
    if arm >= k {
      IfSkips(env, toks, q, end, v, s1);
      st' := s2;
    } else {
      var b := if arm == 0 then pl else if arm == 1 then z else mi;
      assert b == ArmList(pl, z, mi, k)[arm];
      st' := ArmWalks(env, toks, q, end, v, b, m, s1);
    }
  }

  lemma IfSkips(env: Env, toks: seq<Token>, q: nat, end: nat, v: int, s1: State)
    requires q + 9 <= end <= |toks| && Here(toks, q, Verb(IF)) && s1.stack != [] && Top(s1) == v
             && s1.steps < env.maxSteps
    requires Arms(toks, q + 9, end, end, 3).Some? && 0 < |Arms(toks, q + 9, end, end, 3).value.0| <= ArmIndex(v)
    ensures Exec(env, toks, q, end, s1) == Exec(env, toks, Arms(toks, q + 9, end, end, 3).value.1, end, Pop(Tick(s1)))
  {
    hide Exec, ExecOne, Here, Verb, Arms, RegionsIn;
    PlainVerb(env, toks, q, end, IF, Tick(s1));
    WalkStep(env, toks, q, end, s1, Arms(toks, q + 9, end, end, 3).value.1, Pop(Tick(s1)));
  }

  lemma {:induction false} ArmWalks(env: Env, toks: seq<Token>, q: nat, end: nat, v: int, b: Block, m: Mem, s1: State)
      returns (st': State)
    requires q + 9 <= end <= |toks| && Here(toks, q, Verb(IF)) && s1.stack != [] && Top(s1) == v
             && s1.steps < env.maxSteps
    requires Arms(toks, q + 9, end, end, 3).Some? && ArmIndex(v) < |Arms(toks, q + 9, end, end, 3).value.0|
    requires ArmIs(toks, Arms(toks, q + 9, end, end, 3).value.0[ArmIndex(v)], b)
    requires Proper(b) && env.attached && Shows(env, m, s1) && Sem(Grants(env), b, m, Gas(env, s1) - 1).Some?
    ensures var r := Sem(Grants(env), b, m, Gas(env, s1) - 1).value;
            && Shows(env, r.0, st') && Gas(env, st') == r.1 && st'.stack == s1.stack[..|s1.stack| - 1]
            && (r.2.Fell? ==>
                  Exec(env, toks, q, end, s1) == Exec(env, toks, Arms(toks, q + 9, end, end, 3).value.1, end, st'))
            && (r.2.Left? ==> Exec(env, toks, q, end, s1) == (st', Broke))
    decreases Gas(env, s1) - 1, b, 2
  {
    hide Here, Verb, Arms, RegionsIn, Flat, Sem, Grants, GridOf, Loop, CallSlot;
    var (regions, after) := Arms(toks, q + 9, end, end, 3).value;
    var arm := regions[ArmIndex(v)];
    ArmBounds(toks, q + 9, end, ArmIndex(v));
    var s2 := Pop(Tick(s1));
    st' := BlockWalks(env, toks, arm.0, arm.1, b, m, s2);
    var r := Sem(Grants(env), b, m, Gas(env, s2)).value;
    ArmResult(env, toks, q, end, v, s1, r, st');
  }

  lemma ArmBounds(toks: seq<Token>, p: nat, end: nat, k: nat)
    requires end <= |toks| && Arms(toks, p, end, end, 3).Some? && k < |Arms(toks, p, end, end, 3).value.0|
    ensures var a := Arms(toks, p, end, end, 3).value.0[k]; a.0 <= a.1 < end
  {
    hide Arms;
    var a := Arms(toks, p, end, end, 3).value.0[k];
    assert a in Arms(toks, p, end, end, 3).value.0;
  }

  lemma ArmResult(env: Env, toks: seq<Token>, q: nat, end: nat, v: int, s1: State, r: (Mem, nat, Signal), st': State)
    requires q + 9 <= end <= |toks| && Here(toks, q, Verb(IF)) && s1.stack != [] && Top(s1) == v
             && s1.steps < env.maxSteps
    requires Arms(toks, q + 9, end, end, 3).Some? && ArmIndex(v) < |Arms(toks, q + 9, end, end, 3).value.0|
    requires var a := Arms(toks, q + 9, end, end, 3).value.0[ArmIndex(v)];
             a.1 < |toks| && Walked(env, toks, a.0, a.1, a.1, Pop(Tick(s1)), r, st')
    ensures r.2.Fell? ==>
              Exec(env, toks, q, end, s1) == Exec(env, toks, Arms(toks, q + 9, end, end, 3).value.1, end, st')
    ensures r.2.Left? ==> Exec(env, toks, q, end, s1) == (st', Broke)
  {
    hide Here, Verb, Arms, RegionsIn, GridOf;
    var (regions, after) := Arms(toks, q + 9, end, end, 3).value;
    var k := ArmIndex(v);
    var a := regions[k];
    ArmBounds(toks, q + 9, end, k);
    var s2 := Pop(Tick(s1));
    PlainVerb(env, toks, q, end, IF, Tick(s1));
    assert Dispatch(env, IF, 0, toks, q + 9, end, Tick(s1)) == Resume(Exec(env, toks, a.0, a.1, s2), after);
    if r.2.Fell? {
      assert Exec(env, toks, a.0, a.1, s2) == (st', Fall(a.1));
      WalkStep(env, toks, q, end, s1, after, st');
    }
  }

  lemma {:induction false} LoopVerbWalks(env: Env, toks: seq<Token>, p: nat, end: nat, b: Block, m: Mem, st: State)
      returns (st': State)
    requires end <= |toks| && Here(toks, p, Verb(LOOP) + Region(Flat(b))) && p + |Verb(LOOP) + Region(Flat(b))| <= end
    requires Proper(b) && env.attached && Shows(env, m, st) && SemCmd(Grants(env), Loops(b), m, Gas(env, st)).Some?
    ensures Walked(env, toks, p, p + |Verb(LOOP) + Region(Flat(b))|, end, st,
            SemCmd(Grants(env), Loops(b), m, Gas(env, st)).value, st')
    decreases Gas(env, st), Loops(b), 0, 0
  {
    hide Exec, ExecOne, Here, Verb, Grants, GridOf, Sem, SemLoop, Flat, Match, Region, Loop;
    var f := Flat(b);
    HereSplit(toks, p, Verb(LOOP), Region(f));
    VerbLength(LOOP);
    var q := p + 9;
    OneArm(toks, q, end, b, 1);
    PlainVerb(env, toks, p, end, LOOP, Tick(st));
    st' := LoopWalks(env, toks, q + 1, q + 1 + |f|, b, m, Tick(st));
    WalkStep(env, toks, p, end, st, q + 2 + |f|, st');
  }

  lemma {:induction false} LoopWalks(env: Env, toks: seq<Token>, lo: nat, hi: nat, b: Block, m: Mem, st: State)
      returns (st': State)
    requires hi <= |toks| && hi == lo + |Flat(b)| && Here(toks, lo, Flat(b))
    requires Proper(b) && env.attached && Shows(env, m, st) && SemLoop(Grants(env), b, m, Gas(env, st)).Some?
    ensures var r := SemLoop(Grants(env), b, m, Gas(env, st)).value;
            Loop(env, toks, lo, hi, st) == (st', Fall(hi + 1)) && Shows(env, r.0, st') && Gas(env, st') == r.1
                && st'.stack == st.stack
    decreases Gas(env, st), b, 2
  {
    hide Here, Grants, GridOf, Sem, Flat;
    var s := Tick(st);
    var st1 := BlockWalks(env, toks, lo, hi, b, m, s);
    var r := Sem(Grants(env), b, m, Gas(env, s)).value;
    if r.2.Left? {
      st' := st1;
    } else {
      assert Exec(env, toks, lo, hi, s) == (st1, Fall(hi));
      st' := LoopWalks(env, toks, lo, hi, b, r.0, st1);
    }
  }

  // ----- whole programs -----

  lemma {:induction false} ProgramWalks(env: Env, slot: int, b: Block, m: Mem, st: State) returns (st': State)
    requires slot in env.programs && env.programs[slot] == Program(slot, Flat(b)) && Proper(b)
    requires env.attached && Shows(env, m, st) && st.steps < env.maxSteps
    requires Sem(Grants(env), b, m, Gas(env, st) - 1).Some? && Sem(Grants(env), b, m, Gas(env, st) - 1).value.2.Fell?
    requires Sem(Grants(env), b, m, Gas(env, st) - 1).value.1 >= 1
    ensures var r := Sem(Grants(env), b, m, Gas(env, st) - 1).value;
            && CallSlot(env, slot, st) == (st', Fall(0)) && st'.stack == st.stack
            && Shows(env, r.0, st') && Gas(env, st') == r.1 - 1
  {
    hide ExecOne, Dispatch, Here, Grants, GridOf, Sem, Flat, VerbArg, EncodeInteger;
    var toks := env.programs[slot];
    var h, f := VerbArg(DEF, slot), Flat(b);
    var s1 := HeaderWalks(env, slot, toks, h, f, st);
    BodyHere(toks, h, f);
    var q := |h| + |f|;
    var s2 := BlockWalks(env, toks, |h|, |toks|, b, m, s1);
    assert Exec(env, toks, 0, |toks|, st) == Exec(env, toks, q, |toks|, s2);
    assert ExecOne(env, toks, q, |toks|, Tick(s2)) == (Tick(s2), Returned) by { RecordEnds(env, toks, q, Tick(s2)); }
    st' := Tick(s2);
  }

  lemma RecordEnds(env: Env, toks: seq<Token>, q: nat, s: State)
    requires q < |toks| && toks[q] == RECORD
    ensures ExecOne(env, toks, q, |toks|, s) == (s, Returned)
  {
  }

  lemma BodyHere(toks: seq<Token>, h: seq<Token>, f: seq<Token>)
    requires toks == h + f + [RECORD]
    ensures Here(toks, 0, h) && Here(toks, |h|, f) && |toks| == |h| + |f| + 1 && toks[|h| + |f|] == RECORD
  {
    assert toks[|h|..|h| + |f|] == f;
    assert toks[..|h|] == h;
  }

  lemma HeaderWalks(env: Env, slot: int, toks: seq<Token>, h: seq<Token>, f: seq<Token>, st: State) returns (s1: State)
    requires toks == h + f + [RECORD] && h == VerbArg(DEF, slot) && st.steps < env.maxSteps
    ensures s1 == Tick(st) && Exec(env, toks, 0, |toks|, st) == Exec(env, toks, |h|, |toks|, s1)
  {
    hide Exec, ExecOne, Here, VerbArg;
    BodyHere(toks, h, f);
    s1 := Tick(st);
    ArgVerb(env, toks, 0, |toks|, DEF, slot, s1);
    WalkStep(env, toks, 0, |toks|, st, |h|, s1);
  }
}
