/** Infix arithmetic: the shunting-yard evaluator of python/binary_grid_db.py
    against expression trees. */
module ShuntingYard {
  import opened Lexicon

  datatype Op = Add | Sub | Mul | Div | Eq | Pow

  /** A parsed stream: numbers, operators, parentheses, the scale annotation, and
      whatever else the parser lets out (record marks, words). */
  datatype Item =
    | Number(value: int)
    | Scaled(numerator: int, scale: nat)
    | Operator(op: Op)
    | Open
    | Close
    | Scale
    | Other

  datatype Error = BadScale | Mismatched | NeedsTwo | DivZero | NotInteger | Overflow

  datatype Result<+T> = Ok(value: T) | Err(error: Error)

  function Precedence(o: Op): nat {
    match o
    case Eq => 1
    case Add => 2
    case Sub => 2
    case Mul => 3
    case Div => 3
    case Pow => 4
  }

  predicate RightAssociative(o: Op) {
    o == Pow || o == Eq
  }

  function Power(a: int, b: nat): int {
    if b == 0 then 1 else a * Power(a, b - 1)
  }

  /** What the evaluator computes with: integers, until a negative exponent makes a
      float of one (and that in turn, it may be, a complex number). */
  datatype Amount = Whole(value: int) | Inexact(id: int)

  /** Arithmetic as soon as anything but integers is in it: any function. */
  type Floats = (Op, Amount, Amount) -> Result<Amount>

  function Apply(o: Op, a: Amount, b: Amount, fl: Floats): Result<Amount> {
    if a.Inexact? || b.Inexact? then fl(o, a, b)
    else
      var r := ApplyWhole(o, a.value, b.value);
      if r.Ok? then Ok(Whole(r.value)) else if r.error == NotInteger then fl(o, a, b) else Err(r.error)
  }

  /** Integers only: a negative exponent is an error. */
  function ApplyWhole(o: Op, a: int, b: int): Result<int> {
    match o
    case Add => Ok(a + b)
    case Sub => Ok(a - b)
    case Mul => Ok(a * b)
    case Div => if b == 0 then Err(DivZero) else Ok(FloorDiv(a, b))
    case Eq => Ok(if a == b then 1 else 0)
    case Pow => if b >= 0 then Ok(Power(a, b)) else if a == 0 then Err(DivZero) else Err(NotInteger)
  }

  // ----- the evaluator -----

  /** NUM S NUM becomes one scaled number. */
  function Resolve(items: seq<Item>): Result<seq<Item>>
    decreases |items|
  {
    if items == [] then Ok([])
    else if |items| > 2 && items[0].Number? && items[1] == Scale && items[2].Number? then
      if items[2].value < 0 then Err(BadScale)
      else Prepend(Scaled(items[0].value, items[2].value), Resolve(items[3..]))
    else Prepend(items[0], Resolve(items[1..]))
  }

  function Prepend(i: Item, r: Result<seq<Item>>): Result<seq<Item>> {
    if r.Err? then r else Ok([i] + r.value)
  }

  /** Numbers, operators and parentheses only. */
  function Extract(items: seq<Item>): seq<Item> {
    if items == [] then []
    else (if items[0] == Scale || items[0] == Other then [] else [items[0]]) + Extract(items[1..])
  }

  /** The two stacks of the conversion; ops has its top last. */
  datatype Yard = Yard(out: seq<Item>, ops: seq<Item>)

  function Top(y: Yard): Item
    requires y.ops != []
  {
    y.ops[|y.ops| - 1]
  }

  function PopOut(y: Yard): Yard
    requires y.ops != []
  {
    Yard(y.out + [Top(y)], y.ops[..|y.ops| - 1])
  }

  /** An operator gives way to one on the stack that binds tighter, or as tight
      when it groups to the left. */
  predicate GivesWay(o: Op, top: Item) {
    top.Operator? &&
    (Precedence(top.op) > Precedence(o) || (Precedence(top.op) == Precedence(o) && !RightAssociative(o)))
  }

  function PopFor(y: Yard, o: Op): Yard
    decreases |y.ops|
  {
    if y.ops != [] && GivesWay(o, Top(y)) then PopFor(PopOut(y), o) else y
  }

  function PopToOpen(y: Yard): Yard
    decreases |y.ops|
  {
    if y.ops != [] && Top(y) != Open then PopToOpen(PopOut(y)) else y
  }

  function Shunt1(y: Yard, i: Item): Option<Yard> {
    match i
    case Operator(o) => Some(var z := PopFor(y, o); z.(ops := z.ops + [i]))
    case Open => Some(y.(ops := y.ops + [Open]))
    case Close =>
      var z := PopToOpen(y);
      if z.ops == [] then None else Some(z.(ops := z.ops[..|z.ops| - 1]))
    case _ => Some(y.(out := y.out + [i]))
  }

  function Shunt(y: Yard, items: seq<Item>): Option<Yard>
    decreases |items|
  {
    if items == [] then Some(y)
    else
      var z := Shunt1(y, items[0]);
      if z.None? then None else Shunt(z.value, items[1..])
  }

  /** The operators left at the end, top first. */
  function Drain(y: Yard): Option<seq<Item>>
    decreases |y.ops|
  {
    if y.ops == [] then Some(y.out)
    else if Top(y) == Open then None
    else Drain(PopOut(y))
  }

  function RunRpn(rpn: seq<Item>, stack: seq<Amount>, fl: Floats): Result<seq<Amount>>
    decreases |rpn|
  {
    if rpn == [] then Ok(stack)
    else
      match rpn[0]
      case Number(v) => RunRpn(rpn[1..], stack + [Whole(v)], fl)
      case Scaled(n, _) => RunRpn(rpn[1..], stack + [Whole(n)], fl)
      case Operator(o) =>
        if |stack| < 2 then Err(NeedsTwo)
        else
          var r := Apply(o, stack[|stack| - 2], stack[|stack| - 1], fl);
          if r.Err? then Err(r.error) else RunRpn(rpn[1..], stack[..|stack| - 2] + [r.value], fl)
      case _ => RunRpn(rpn[1..], stack, fl)
  }

  function Evaluate(items: seq<Item>, fl: Floats): Result<Amount> {
    var resolved := Resolve(items);
    if resolved.Err? then Err(resolved.error)
    else EvaluateInfix(Extract(resolved.value), fl)
  }

  function EvaluateInfix(infix: seq<Item>, fl: Floats): Result<Amount> {
    if infix == [] then Ok(Whole(0))
    else if |infix| == 1 && infix[0].Number? then Ok(Whole(infix[0].value))
    else if |infix| == 1 && infix[0].Scaled? then Ok(Whole(infix[0].numerator))
    else
      var y := Shunt(Yard([], []), infix);
      if y.None? then Err(Mismatched)
      else
        var rpn := Drain(y.value);
        if rpn.None? then Err(Mismatched)
        else
          var s := RunRpn(rpn.value, [], fl);
          if s.Err? then Err(s.error) else Ok(if s.value == [] then Whole(0) else s.value[|s.value| - 1])
  }

  // ----- expression trees -----

  datatype Expr =
    | Num(value: int)
    /** A number with implied decimal places. */
    | Dec(numerator: int, scale: int)
    | Paren(inner: Expr)
    | Bin(op: Op, left: Expr, right: Expr)

  function Value(e: Expr, fl: Floats): Result<Amount> {
    match e
    case Num(v) => Ok(Whole(v))
    case Dec(n, _) => Ok(Whole(n))
    case Paren(x) => Value(x, fl)
    case Bin(o, l, r) =>
      var a := Value(l, fl);
      if a.Err? then a
      else
        var b := Value(r, fl);
        if b.Err? then b else Apply(o, a.value, b.value, fl)
  }

  /** The value in integers alone. */
  function WholeValue(e: Expr): Result<int> {
    match e
    case Num(v) => Ok(v)
    case Dec(n, _) => Ok(n)
    case Paren(x) => WholeValue(x)
    case Bin(o, l, r) =>
      var a := WholeValue(l);
      if a.Err? then a
      else
        var b := WholeValue(r);
        if b.Err? then b else ApplyWhole(o, a.value, b.value)
  }

  /** Float arithmetic comes into a tree's value exactly when evaluating it in integers
      first fails at a negative exponent: if it does, whatever that arithmetic makes
      of it is what comes out, an error included; if not, the integer is the value. */
  lemma {:induction false} FloatsMatter(e: Expr, fl: Floats, x: Error)
    ensures WholeValue(e).Ok? ==> Value(e, fl) == Ok(Whole(WholeValue(e).value))
    ensures WholeValue(e).Err? && WholeValue(e).error != NotInteger ==> Value(e, fl) == Err(WholeValue(e).error)
    ensures WholeValue(e) == Err(NotInteger) ==> Value(e, (o, a, b) => Err(x)) == Err(x)
  {
    match e
    case Num(_) =>
    case Dec(_, _) =>
    case Paren(y) => FloatsMatter(y, fl, x);
    case Bin(o, l, r) =>
      var none: Floats := (o, a, b) => Err(x);
      FloatsMatter(l, fl, x);
      FloatsMatter(r, fl, x);
      FloatsMatter(l, none, x);
      FloatsMatter(r, none, x);
  }

  predicate ScalesOk(e: Expr) {
    match e
    case Num(_) => true
    case Dec(_, s) => s >= 0
    case Paren(x) => ScalesOk(x)
    case Bin(_, l, r) => ScalesOk(l) && ScalesOk(r)
  }

  /** The infix text of a tree, with the parentheses it has and no others. */
  function Print(e: Expr): seq<Item> {
    match e
    case Num(v) => [Number(v)]
    case Dec(n, s) => [Number(n), Scale, Number(s)]
    case Paren(x) => [Open] + Print(x) + [Close]
    case Bin(o, l, r) => Print(l) + [Operator(o)] + Print(r)
  }

  /** How tightly the outermost operator binds; a closed tree binds tightest. */
  function Tightness(e: Expr): nat {
    if e.Bin? then Precedence(e.op) else 5
  }

  /** A left operand may stand bare under o. */
  predicate BareLeft(o: Op, l: Expr) {
    Tightness(l) > Precedence(o) || (Tightness(l) == Precedence(o) && !RightAssociative(o))
  }

  predicate BareRight(o: Op, r: Expr) {
    Tightness(r) > Precedence(o) || (Tightness(r) == Precedence(o) && RightAssociative(o))
  }

  /** Every operand that needs parentheses has them. */
  predicate Bracketed(e: Expr) {
    match e
    case Num(_) => true
    case Dec(_, _) => true
    case Paren(x) => Bracketed(x)
    case Bin(o, l, r) => Bracketed(l) && Bracketed(r) && BareLeft(o, l) && BareRight(o, r)
  }

  /** Adds just the parentheses a tree needs. */
  function Bracket(e: Expr): (b: Expr)
    ensures Bracketed(b) && (forall fl: Floats :: Value(b, fl) == Value(e, fl)) && (ScalesOk(b) <==> ScalesOk(e))
    ensures Tightness(b) == Tightness(e)
  {
    match e
    case Num(_) => e
    case Dec(_, _) => e
    case Paren(x) => Paren(Bracket(x))
    case Bin(o, l, r) =>
      var bl, br := Bracket(l), Bracket(r);
      Bin(o, if BareLeft(o, bl) then bl else Paren(bl), if BareRight(o, br) then br else Paren(br))
  }

  // ----- conversion -----

  /** The tree in reverse Polish order. */
  function Rpn(e: Expr): seq<Item> {
    match e
    case Num(v) => [Number(v)]
    case Dec(n, s) => [Scaled(n, Abs(s))]
    case Paren(x) => Rpn(x)
    case Bin(o, l, r) => Rpn(l) + Rpn(r) + [Operator(o)]
  }

  /** What of it is out when the tree has just been read, and the operators still
      waiting, outermost first. */
  function Early(e: Expr): seq<Item> {
    match e
    case Num(v) => [Number(v)]
    case Dec(n, s) => [Scaled(n, Abs(s))]
    case Paren(x) => Rpn(x)
    case Bin(o, l, r) => Rpn(l) + Early(r)
  }

  function Late(e: Expr): (ops: seq<Item>)
    ensures forall i :: i in ops ==> i.Operator?
  {
    if e.Bin? then [Operator(e.op)] + Late(e.right) else []
  }

  function Reverse(s: seq<Item>): (r: seq<Item>)
    ensures |r| == |s|
  {
    if s == [] then [] else Reverse(s[1..]) + [s[0]]
  }

  /** The stack below does not give way to anything as tight as p. */
  predicate Settled(ops: seq<Item>, p: nat) {
    ops == [] || ops[|ops| - 1] == Open ||
    (ops[|ops| - 1].Operator? &&
     var q := ops[|ops| - 1].op;
     Precedence(q) < p || (Precedence(q) == p && RightAssociative(q)))
  }

  /** Printed and resolved: a decimal is one item. */
  function Infix(e: Expr): seq<Item> {
    match e
    case Num(v) => [Number(v)]
    case Dec(n, s) => [Scaled(n, Abs(s))]
    case Paren(x) => [Open] + Infix(x) + [Close]
    case Bin(o, l, r) => Infix(l) + [Operator(o)] + Infix(r)
  }

  lemma {:induction false} ReverseAppend(a: seq<Item>, b: seq<Item>)
    ensures Reverse(a + b) == Reverse(b) + Reverse(a)
  {
    if a == [] {
      assert a + b == b;
    } else {
      assert (a + b)[1..] == a[1..] + b;
      ReverseAppend(a[1..], b);
    }
  }

  lemma ReverseSnoc(run: seq<Item>)
    requires run != []
    ensures Reverse(run) == [run[|run| - 1]] + Reverse(run[..|run| - 1])
  {
    hide Reverse;
    var k := |run| - 1;
    LastApart(run);
    ReverseAppend(run[..k], [run[k]]);
    ReverseOne(run[k]);
  }

  lemma LastApart(run: seq<Item>)
    requires run != []
    ensures run == run[..|run| - 1] + [run[|run| - 1]]
  {
  }

  lemma ReverseOne(x: Item)
    ensures Reverse([x]) == [x]
  {
    assert [x][1..] == [];
  }

  lemma {:induction false} EarlyThenLate(e: Expr)
    ensures Early(e) + Reverse(Late(e)) == Rpn(e)
  {
    if e.Bin? {
      EarlyThenLate(e.right);
      ReverseAppend([Operator(e.op)], Late(e.right));
      ReverseOne(Operator(e.op));
    }
  }

  lemma {:induction false} LateTight(e: Expr)
    requires Bracketed(e)
    ensures forall i :: i in Late(e) ==> i.Operator? && Precedence(i.op) >= Tightness(e)
  {
    if e.Bin? {
      LateTight(e.right);
    }
  }

  lemma LastOfRun(below: seq<Item>, run: seq<Item>)
    requires run != []
    ensures var all, k := below + run, |run| - 1;
            all != [] && all[|all| - 1] == run[k] && all[..|all| - 1] == below + run[..k] && run[k] in run
  {
  }

  /** The run comes out last item first. */
  lemma OutReversed(out: seq<Item>, run: seq<Item>)
    requires run != []
    ensures out + [run[|run| - 1]] + Reverse(run[..|run| - 1]) == out + Reverse(run)
  {
    hide *;
    ReverseSnoc(run);
    JoinedThree(out, [run[|run| - 1]], Reverse(run[..|run| - 1]));
  }

  lemma JoinedThree(a: seq<Item>, b: seq<Item>, c: seq<Item>)
    ensures a + b + c == a + (b + c)
  {
  }

  lemma PopOne(y: Yard, o: Op)
    requires y.ops != [] && GivesWay(o, Top(y))
    ensures PopFor(y, o) == PopFor(PopOut(y), o)
  {
    hide GivesWay;
  }

  lemma PopNone(y: Yard, o: Op)
    requires y.ops == [] || !GivesWay(o, Top(y))
    ensures PopFor(y, o) == y
  {
    hide GivesWay;
  }

  /** An operator clears a run of tighter ones off the stack and stops below them. */
  lemma {:induction false} PopRun(out: seq<Item>, below: seq<Item>, run: seq<Item>, o: Op)
    requires forall i :: i in run ==> GivesWay(o, i)
    requires below == [] || !GivesWay(o, below[|below| - 1])
    ensures PopFor(Yard(out, below + run), o) == Yard(out + Reverse(run), below)
    decreases |run|
  {
    hide GivesWay, PopFor;
    if run == [] {
      assert below + run == below && out + Reverse(run) == out;
      PopNone(Yard(out, below), o);
    } else {
      hide Reverse;
      var k := |run| - 1;
      LastOfRun(below, run);
      PopOne(Yard(out, below + run), o);
      PopRun(out + [run[k]], below, run[..k], o);
      OutReversed(out, run);
    }
  }

  lemma {:induction false} PopRunToOpen(out: seq<Item>, below: seq<Item>, run: seq<Item>)
    requires forall i :: i in run ==> i.Operator?
    ensures PopToOpen(Yard(out, below + [Open] + run)) == Yard(out + Reverse(run), below + [Open])
    decreases |run|
  {
    if run == [] {
      assert below + [Open] + run == below + [Open] && out + Reverse(run) == out;
    } else {
      hide Reverse;
      var k := |run| - 1;
      LastOfRun(below + [Open], run);
      PopRunToOpen(out + [run[k]], below, run[..k]);
      OutReversed(out, run);
    }
  }

  lemma {:induction false} DrainRun(out: seq<Item>, run: seq<Item>)
    requires forall i :: i in run ==> i.Operator?
    ensures Drain(Yard(out, run)) == Some(out + Reverse(run))
    decreases |run|
  {
    if run == [] {
      assert out + Reverse(run) == out;
    } else {
      var k := |run| - 1;
      assert run[k] in run;
      ReverseSnoc(run);
      DrainRun(out + [run[k]], run[..k]);
      assert out + [run[k]] + Reverse(run[..k]) == out + ([run[k]] + Reverse(run[..k]));
    }
  }

  lemma ShuntOne(y: Yard, i: Item, rest: seq<Item>)
    ensures Shunt(y, [i] + rest) == if Shunt1(y, i).None? then None else Shunt(Shunt1(y, i).value, rest)
  {
    assert ([i] + rest)[1..] == rest;
  }

  function After(y: Yard, e: Expr): Yard {
    Yard(y.out + Early(e), y.ops + Late(e))
  }

  /** Reading a tree puts out what comes early and leaves the late operators on
      the stack, whatever follows. */
  lemma {:induction false} ShuntTree(e: Expr, y: Yard, rest: seq<Item>)
    requires Bracketed(e) && Settled(y.ops, Tightness(e))
    ensures Shunt(y, Infix(e) + rest) == Shunt(After(y, e), rest)
    decreases e
  {
    match e
    case Num(v) =>
      ShuntOne(y, Number(v), rest);
      assert y.ops + Late(e) == y.ops;
    case Dec(n, s) =>
      ShuntOne(y, Scaled(n, Abs(s)), rest);
      assert y.ops + Late(e) == y.ops;
    case Paren(x) => ShuntParen(x, y, rest);
    case Bin(o, l, r) => ShuntBin(o, l, r, y, rest);
  }

  lemma {:induction false} ShuntParen(x: Expr, y: Yard, rest: seq<Item>)
    requires Bracketed(x)
    ensures Shunt(y, Infix(Paren(x)) + rest) == Shunt(After(y, Paren(x)), rest)
    decreases Paren(x), 0
  {
    hide Shunt, Shunt1;
    var inside := Yard(y.out, y.ops + [Open]);
    assert Infix(Paren(x)) + rest == [Open] + (Infix(x) + ([Close] + rest));
    ShuntOne(y, Open, Infix(x) + ([Close] + rest));
    ShuntOpen(y);
    ShuntTree(x, inside, [Close] + rest);
    ShuntOne(After(inside, x), Close, rest);
    ShuntClose(y, x);
  }

  lemma ShuntOpen(y: Yard)
    ensures Shunt1(y, Open) == Some(Yard(y.out, y.ops + [Open]))
  {
  }

  lemma ShuntClose(y: Yard, x: Expr)
    ensures Shunt1(After(Yard(y.out, y.ops + [Open]), x), Close) == Some(After(y, Paren(x)))
  {
    var z := After(Yard(y.out, y.ops + [Open]), x);
    PopRunToOpen(y.out + Early(x), y.ops, Late(x));
    EarlyThenLate(x);
    assert y.out + Early(x) + Reverse(Late(x)) == y.out + Rpn(x);
    assert (y.ops + [Open])[..|y.ops + [Open]| - 1] == y.ops;
    assert y.ops + Late(Paren(x)) == y.ops;
  }

  lemma {:induction false} ShuntBin(o: Op, l: Expr, r: Expr, y: Yard, rest: seq<Item>)
    requires Bracketed(Bin(o, l, r)) && Settled(y.ops, Precedence(o))
    ensures Shunt(y, Infix(Bin(o, l, r)) + rest) == Shunt(After(y, Bin(o, l, r)), rest)
    decreases Bin(o, l, r), 0
  {
    hide *;
    var between := [Operator(o)] + (Infix(r) + rest);
    var z := Yard(y.out + Rpn(l), y.ops + [Operator(o)]);
    BinParts(o, l, r, y, rest);
    ShuntTree(l, y, between);
    ShuntOne(After(y, l), Operator(o), Infix(r) + rest);
    ShuntOperator(o, l, y);
    ShuntTree(r, z, rest);
  }

  lemma BinParts(o: Op, l: Expr, r: Expr, y: Yard, rest: seq<Item>)
    requires Bracketed(Bin(o, l, r)) && Settled(y.ops, Precedence(o))
    ensures Bracketed(l) && Bracketed(r) && BareLeft(o, l)
    ensures Settled(y.ops, Tightness(l)) && Settled(y.ops + [Operator(o)], Tightness(r))
    ensures Infix(Bin(o, l, r)) + rest == Infix(l) + ([Operator(o)] + (Infix(r) + rest))
    ensures After(Yard(y.out + Rpn(l), y.ops + [Operator(o)]), r) == After(y, Bin(o, l, r))
  {
    hide *;
    BinSettled(o, l, r, y.ops);
    BinShape(o, l, r);
    AfterBin(o, l, r, y);
    Joined(Infix(l), [Operator(o)], Infix(r), rest);
  }

  lemma Joined(a: seq<Item>, b: seq<Item>, c: seq<Item>, d: seq<Item>)
    ensures a + b + c + d == a + (b + (c + d))
  {
  }

  lemma AfterBin(o: Op, l: Expr, r: Expr, y: Yard)
    ensures After(Yard(y.out + Rpn(l), y.ops + [Operator(o)]), r) == After(y, Bin(o, l, r))
  {
    BinShape(o, l, r);
    hide Early, Late, Rpn;
    assert y.out + Rpn(l) + Early(r) == y.out + (Rpn(l) + Early(r));
    assert y.ops + [Operator(o)] + Late(r) == y.ops + ([Operator(o)] + Late(r));
  }

  lemma BinSettled(o: Op, l: Expr, r: Expr, ops: seq<Item>)
    requires Bracketed(Bin(o, l, r)) && Settled(ops, Precedence(o))
    ensures Bracketed(l) && Bracketed(r) && BareLeft(o, l)
    ensures Settled(ops, Tightness(l)) && Settled(ops + [Operator(o)], Tightness(r))
  {
  }

  lemma BinShape(o: Op, l: Expr, r: Expr)
    ensures Infix(Bin(o, l, r)) == Infix(l) + [Operator(o)] + Infix(r)
    ensures Early(Bin(o, l, r)) == Rpn(l) + Early(r)
    ensures Late(Bin(o, l, r)) == [Operator(o)] + Late(r)
  {
  }

  lemma ShuntOperator(o: Op, l: Expr, y: Yard)
    requires Bracketed(l) && BareLeft(o, l) && Settled(y.ops, Precedence(o))
    ensures Shunt1(After(y, l), Operator(o)) == Some(Yard(y.out + Rpn(l), y.ops + [Operator(o)]))
  {
    hide *;
    LateGivesWay(l, o);
    SettledStays(y.ops, o);
    PopRun(y.out + Early(l), y.ops, Late(l), o);
    EarlyThenLate(l);
    assert y.out + Early(l) + Reverse(Late(l)) == y.out + (Early(l) + Reverse(Late(l)));
    ShuntIs(y, l, o);
  }

  lemma ShuntIs(y: Yard, l: Expr, o: Op)
    ensures Shunt1(After(y, l), Operator(o))
         == Some(var z := PopFor(Yard(y.out + Early(l), y.ops + Late(l)), o); z.(ops := z.ops + [Operator(o)]))
  {
    hide PopFor, Early, Late;
  }

  lemma LateGivesWay(l: Expr, o: Op)
    requires Bracketed(l) && BareLeft(o, l)
    ensures forall i :: i in Late(l) ==> GivesWay(o, i)
  {
    LateTight(l);
    hide Late, Bracketed;
  }

  lemma SettledStays(ops: seq<Item>, o: Op)
    requires Settled(ops, Precedence(o))
    ensures ops == [] || !GivesWay(o, ops[|ops| - 1])
  {
  }

  // ----- reverse Polish -----

  lemma RpnOne(i: Item, rest: seq<Item>, stack: seq<Amount>, fl: Floats)
    requires i.Number? || i.Scaled?
    ensures RunRpn([i] + rest, stack, fl)
            == RunRpn(rest, stack + [Whole(if i.Number? then i.value else i.numerator)], fl)
  {
    assert ([i] + rest)[1..] == rest;
  }

  lemma RpnApply(o: Op, rest: seq<Item>, stack: seq<Amount>, a: Amount, b: Amount, fl: Floats)
    ensures RunRpn([Operator(o)] + rest, stack + [a] + [b], fl)
         == if Apply(o, a, b, fl).Err? then Err(Apply(o, a, b, fl).error)
            else RunRpn(rest, stack + [Apply(o, a, b, fl).value], fl)
  {
    hide Apply;
    var s := stack + [a] + [b];
    assert ([Operator(o)] + rest)[1..] == rest;
    assert s[..|s| - 2] == stack;
  }

  /** The stack machine pushes the tree's value, or stops at its first error. */
  lemma {:induction false} RunsTree(e: Expr, rest: seq<Item>, stack: seq<Amount>, fl: Floats)
    ensures RunRpn(Rpn(e) + rest, stack, fl)
         == if Value(e, fl).Err? then Err(Value(e, fl).error) else RunRpn(rest, stack + [Value(e, fl).value], fl)
    decreases e
  {
    hide RunRpn, Apply;
    match e
    case Num(v) => RpnOne(Number(v), rest, stack, fl);
    case Dec(n, s) => RpnOne(Scaled(n, Abs(s)), rest, stack, fl);
    case Paren(x) => RunsTree(x, rest, stack, fl);
    case Bin(o, l, r) =>
      var last := [Operator(o)] + rest;
      assert Rpn(e) + rest == Rpn(l) + (Rpn(r) + last);
      RunsTree(l, Rpn(r) + last, stack, fl);
      if Value(l, fl).Ok? {
        RunsTree(r, last, stack + [Value(l, fl).value], fl);
        if Value(r, fl).Ok? {
          RpnApply(o, rest, stack, Value(l, fl).value, Value(r, fl).value, fl);
        }
      }
  }

  // ----- scales and marks -----

  predicate Marks(items: seq<Item>) {
    forall k :: 0 <= k < |items| ==> items[k] == Other
  }

  function PrependAll(items: seq<Item>, r: Result<seq<Item>>): Result<seq<Item>> {
    if r.Err? then r else Ok(items + r.value)
  }

  lemma ResolvePlain(i: Item, rest: seq<Item>)
    requires i.Number? ==> rest == [] || rest[0] != Scale
    ensures Resolve([i] + rest) == Prepend(i, Resolve(rest))
  {
    assert ([i] + rest)[1..] == rest;
  }

  lemma ResolveScaled(n: int, s: int, rest: seq<Item>)
    ensures Resolve([Number(n), Scale, Number(s)] + rest)
         == if s < 0 then Err(BadScale) else Prepend(Scaled(n, s), Resolve(rest))
  {
    assert ([Number(n), Scale, Number(s)] + rest)[3..] == rest;
  }

  lemma {:induction false} PrintNonempty(e: Expr)
    ensures Print(e) != [] && Print(e)[0] != Scale && Infix(e) != []
  {
    if e.Bin? {
      PrintNonempty(e.left);
    }
  }

  lemma {:induction false} ResolveTree(e: Expr, rest: seq<Item>)
    requires rest == [] || rest[0] != Scale
    ensures Resolve(Print(e) + rest)
         == if !ScalesOk(e) then Err(BadScale) else PrependAll(Infix(e), Resolve(rest))
    ensures Resolve(rest).Err? ==> Resolve(rest).error == BadScale
    decreases e
  {
    ResolveErrors(rest);
    hide Resolve;
    match e
    case Num(v) => ResolvePlain(Number(v), rest);
    case Dec(n, s) => ResolveScaled(n, s, rest);
    case Paren(x) =>
      Joined([Open], Print(x), [Close], rest);
      ResolvePlain(Open, Print(x) + ([Close] + rest));
      ResolveTree(x, [Close] + rest);
      ResolvePlain(Close, rest);
      if Resolve(rest).Ok? {
        Joined([Open], Infix(x), [Close], Resolve(rest).value);
      }
    case Bin(o, l, r) =>
      var more := [Operator(o)] + (Print(r) + rest);
      Joined(Print(l), [Operator(o)], Print(r), rest);
      ResolveTree(l, more);
      ResolvePlain(Operator(o), Print(r) + rest);
      ResolveTree(r, rest);
      if Resolve(rest).Ok? {
        Joined(Infix(l), [Operator(o)], Infix(r), Resolve(rest).value);
      }
  }

  lemma {:induction false} ResolveErrors(items: seq<Item>)
    ensures Resolve(items).Err? ==> Resolve(items).error == BadScale
    decreases |items|
  {
    if items != [] {
      if |items| > 2 && items[0].Number? && items[1] == Scale && items[2].Number? {
        ResolveErrors(items[3..]);
      } else {
        ResolveErrors(items[1..]);
      }
    }
  }

  lemma {:induction false} ResolveMarks(items: seq<Item>)
    requires Marks(items)
    ensures Resolve(items) == Ok(items)
    decreases |items|
  {
    if items != [] {
      ResolveMarks(items[1..]);
      assert [items[0]] + items[1..] == items;
    }
  }

  lemma {:induction false} ExtractAppend(a: seq<Item>, b: seq<Item>)
    ensures Extract(a + b) == Extract(a) + Extract(b)
  {
    if a == [] {
      assert a + b == b;
    } else {
      assert (a + b)[1..] == a[1..] + b;
      ExtractAppend(a[1..], b);
    }
  }

  lemma ExtractOne(i: Item)
    ensures Extract([i]) == if i == Scale || i == Other then [] else [i]
  {
    assert [i][1..] == [];
  }

  lemma {:induction false} ExtractTree(e: Expr)
    ensures Extract(Infix(e)) == Infix(e)
  {
    match e
    case Num(v) => ExtractOne(Number(v));
    case Dec(n, s) => ExtractOne(Scaled(n, Abs(s)));
    case Paren(x) =>
      ExtractTree(x);
      ExtractOne(Open);
      ExtractOne(Close);
      ExtractAppend([Open] + Infix(x), [Close]);
      ExtractAppend([Open], Infix(x));
    case Bin(o, l, r) =>
      ExtractTree(l);
      ExtractTree(r);
      ExtractOne(Operator(o));
      ExtractAppend(Infix(l) + [Operator(o)], Infix(r));
      ExtractAppend(Infix(l), [Operator(o)]);
  }

  lemma {:induction false} ExtractMarks(items: seq<Item>)
    requires Marks(items)
    ensures Extract(items) == []
  {
    if items != [] {
      ExtractMarks(items[1..]);
    }
  }

  // ----- what the evaluator promises -----

  /** The infix form of any tree with its needed parentheses evaluates to the
      tree's value, errors included. */
  lemma InfixValue(e: Expr, fl: Floats)
    requires Bracketed(e)
    ensures EvaluateInfix(Infix(e), fl) == Value(e, fl)
  {
    hide *;
    PrintNonempty(e);
    if |Infix(e)| == 1 {
      OneItem(e);
      OneValue(e, fl);
    } else {
      var y0 := Yard([], []);
      NoneBelow(Tightness(e));
      ShuntTree(e, y0, []);
      assert Infix(e) + [] == Infix(e);
      AfterNothing(e);
      ShuntNothing(After(y0, e));
      LateOperators(e);
      DrainRun(Early(e), Late(e));
      EarlyThenLate(e);
      RunsTree(e, [], [], fl);
      assert Rpn(e) + [] == Rpn(e);
      if Value(e, fl).Ok? {
        assert [] + [Value(e, fl).value] == [Value(e, fl).value];
        RunNothing([Value(e, fl).value], fl);
      }
      InfixSteps(Infix(e), After(y0, e), Rpn(e),
          if Value(e, fl).Err? then Err(Value(e, fl).error) else Ok([Value(e, fl).value]), fl);
    }
  }

  lemma LateOperators(e: Expr)
    ensures forall i :: i in Late(e) ==> i.Operator?
  {
  }

  lemma NoneBelow(p: nat)
    ensures Settled([], p)
  {
  }

  lemma AfterNothing(e: Expr)
    ensures After(Yard([], []), e) == Yard(Early(e), Late(e))
  {
    hide Early, Late;
    assert [] + Early(e) == Early(e) && [] + Late(e) == Late(e);
  }

  lemma OneValue(e: Expr, fl: Floats)
    requires e.Num? || e.Dec?
    ensures EvaluateInfix(Infix(e), fl) == Value(e, fl)
  {
    hide Shunt, Drain, RunRpn;
  }

  lemma InfixSteps(infix: seq<Item>, y: Yard, rpn: seq<Item>, s: Result<seq<Amount>>, fl: Floats)
    requires |infix| > 1 && Shunt(Yard([], []), infix) == Some(y) && Drain(y) == Some(rpn) && RunRpn(rpn, [], fl) == s
    ensures EvaluateInfix(infix, fl)
            == if s.Err? then Err(s.error) else Ok(if s.value == [] then Whole(0) else s.value[|s.value| - 1])
  {
    hide Shunt, Drain, RunRpn;
  }

  lemma ShuntNothing(y: Yard)
    ensures Shunt(y, []) == Some(y)
  {
  }

  lemma RunNothing(stack: seq<Amount>, fl: Floats)
    ensures RunRpn([], stack, fl) == Ok(stack)
  {
  }

  lemma OneItem(e: Expr)
    requires |Infix(e)| == 1
    ensures e.Num? || e.Dec?
  {
    if e.Bin? {
      PrintNonempty(e.left);
      PrintNonempty(e.right);
    }
  }

  /** Printing any tree with at least the parentheses precedence and associativity
      call for, and evaluating the text with whatever marks follow it, gives the
      value of the tree, down to which error comes first; a negative scale anywhere
      is refused before anything is evaluated. */
  lemma PrintedValue(e: Expr, marks: seq<Item>, fl: Floats)
    requires Bracketed(e) && Marks(marks)
    ensures Evaluate(Print(e) + marks, fl) == if ScalesOk(e) then Value(e, fl) else Err(BadScale)
  {
    hide Resolve, Extract, EvaluateInfix;
    ResolveTree(e, marks);
    ResolveMarks(marks);
    if ScalesOk(e) {
      ExtractAppend(Infix(e), marks);
      ExtractTree(e);
      ExtractMarks(marks);
      assert Infix(e) + [] == Infix(e);
      InfixValue(e, fl);
    }
  }

  /** The least parentheses are enough for any tree. */
  lemma BracketedValue(e: Expr, fl: Floats)
    requires ScalesOk(e)
    ensures Evaluate(Print(Bracket(e)), fl) == Value(e, fl)
  {
    hide Evaluate, Print;
    PrintedValue(Bracket(e), [], fl);
    assert Print(Bracket(e)) + [] == Print(Bracket(e));
  }
}
