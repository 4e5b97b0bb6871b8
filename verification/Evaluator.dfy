/** The evaluator as it runs: tokens through the record parser, scales resolved,
    infix to reverse Polish, a stack machine (python/binary_grid_db.py). */
module Evaluator {
  import opened Lexicon
  import opened ShuntingYard
  import P = TokenParser

  // ----- parsed tokens as the evaluator sees them -----

  /** Words, commands and record marks take no part. */
  function ItemOf(x: P.Parsed): Item {
    match x
    case Number(v) => Item.Number(v)
    case Symbol(t) =>
      if t == PLUS then Operator(Add)
      else if t == MINUS then Operator(Sub)
      else if t == MUL then Operator(Op.Mul)
      else if t == DIV then Operator(Op.Div)
      else if t == P.EQ then Operator(Op.Eq)
      else if t == P.POW then Operator(Op.Pow)
      else if t == LPAREN then Open
      else if t == RPAREN then Close
      else if t == P.SCALE then Item.Scale
      else Other
    case _ => Other
  }

  function Items(xs: seq<P.Parsed>): (r: seq<Item>)
    ensures |r| == |xs|
  {
    seq(|xs|, i requires 0 <= i < |xs| => ItemOf(xs[i]))
  }

  /** What inserting an expression returns; None when the parser stops at an error. */
  function Calculate(tokens: seq<Token>, fl: Floats): Option<Result<Amount>> {
    var p := P.FeedAll(P.START_STATE, tokens);
    if p.None? then None else Some(Evaluate(Items(P.Finalized(p.value)), fl))
  }

  // ----- an expression as tokens -----

  function OpToken(o: Op): Token {
    match o
    case Add => PLUS
    case Sub => MINUS
    case Mul => MUL
    case Div => DIV
    case Eq => P.EQ
    case Pow => P.POW
  }

  function Encode(e: Expr): seq<Token> {
    match e
    case Num(v) => EncodeInteger(v)
    case Dec(n, s) => EncodeInteger(n) + [P.SCALE] + EncodeInteger(s)
    case Paren(x) => [LPAREN] + Encode(x) + [RPAREN]
    case Bin(o, l, r) => Encode(l) + [OpToken(o)] + Encode(r)
  }

  /** What the parser makes of an encoded tree. */
  function ParsedForm(e: Expr): seq<P.Parsed> {
    match e
    case Num(v) => [P.Number(v)]
    case Dec(n, s) => [P.Number(n), P.Symbol(P.SCALE), P.Number(s)]
    case Paren(x) => [P.Symbol(LPAREN)] + ParsedForm(x) + [P.Symbol(RPAREN)]
    case Bin(o, l, r) => ParsedForm(l) + [P.Symbol(OpToken(o))] + ParsedForm(r)
  }

  function AtTop(out: seq<P.Parsed>): P.Parsing {
    P.Parsing(P.Num, [], out)
  }

  lemma FeedSymbol(t: Token, out: seq<P.Parsed>, rest: seq<Token>)
    requires !P.IsDigitToken(t) && t < 28
    ensures P.FeedAll(AtTop(out), [t] + rest) == P.FeedAll(AtTop(out + [P.Symbol(t)]), rest)
  {
    P.FeedOne(AtTop(out), t, rest);
    assert out + [] + [P.Symbol(t)] == out + [P.Symbol(t)];
  }

  /** The encoded tree parses to its infix text. */
  lemma {:induction false} FeedTree(e: Expr, out: seq<P.Parsed>, rest: seq<Token>)
    ensures P.FeedAll(AtTop(out), Encode(e) + rest) == P.FeedAll(AtTop(out + ParsedForm(e)), rest)
    decreases e
  {
    hide P.FeedAll, EncodeInteger, Encode, ParsedForm;
    match e
    case Num(v) =>
      assert Encode(e) == EncodeInteger(v) && ParsedForm(e) == [P.Number(v)] by { NumLaid(v); }
      P.FeedInteger(v, out, rest);
    case Dec(n, s) =>
      DecLaid(n, s, out, rest);
      P.FeedInteger(n, out, [P.SCALE] + (EncodeInteger(s) + rest));
      FeedSymbol(P.SCALE, out + [P.Number(n)], EncodeInteger(s) + rest);
      P.FeedInteger(s, out + [P.Number(n)] + [P.Symbol(P.SCALE)], rest);
    case Paren(x) =>
      ParenLaid(x, out, rest);
      FeedSymbol(LPAREN, out, Encode(x) + ([RPAREN] + rest));
      FeedTree(x, out + [P.Symbol(LPAREN)], [RPAREN] + rest);
      FeedSymbol(RPAREN, out + [P.Symbol(LPAREN)] + ParsedForm(x), rest);
    case Bin(o, l, r) =>
      BinLaid(o, l, r, out, rest);
      FeedTree(l, out, [OpToken(o)] + (Encode(r) + rest));
      OpSymbol(o);
      FeedSymbol(OpToken(o), out + ParsedForm(l), Encode(r) + rest);
      FeedTree(r, out + ParsedForm(l) + [P.Symbol(OpToken(o))], rest);
  }

  lemma OpSymbol(o: Op)
    ensures !P.IsDigitToken(OpToken(o)) && OpToken(o) < 28
  {
  }

  lemma NumLaid(v: int)
    ensures Encode(Num(v)) == EncodeInteger(v) && ParsedForm(Num(v)) == [P.Number(v)]
  {
    hide EncodeInteger;
  }

  lemma DecLaid(n: int, s: int, out: seq<P.Parsed>, rest: seq<Token>)
    ensures Encode(Dec(n, s)) + rest == EncodeInteger(n) + ([P.SCALE] + (EncodeInteger(s) + rest))
    ensures out + ParsedForm(Dec(n, s)) == out + [P.Number(n)] + [P.Symbol(P.SCALE)] + [P.Number(s)]
  {
    hide EncodeInteger;
  }

  lemma ParenLaid(x: Expr, out: seq<P.Parsed>, rest: seq<Token>)
    ensures Encode(Paren(x)) + rest == [LPAREN] + (Encode(x) + ([RPAREN] + rest))
    ensures out + ParsedForm(Paren(x)) == out + [P.Symbol(LPAREN)] + ParsedForm(x) + [P.Symbol(RPAREN)]
  {
    Regroup([LPAREN], Encode(x), [RPAREN], rest);
    Regroup(out, [P.Symbol(LPAREN)], ParsedForm(x), [P.Symbol(RPAREN)]);
  }

  lemma BinLaid(o: Op, l: Expr, r: Expr, out: seq<P.Parsed>, rest: seq<Token>)
    ensures Encode(Bin(o, l, r)) + rest == Encode(l) + ([OpToken(o)] + (Encode(r) + rest))
    ensures out + ParsedForm(Bin(o, l, r)) == out + ParsedForm(l) + [P.Symbol(OpToken(o))] + ParsedForm(r)
  {
    hide OpToken;
    Regroup(Encode(l), [OpToken(o)], Encode(r), rest);
    Regroup(out, ParsedForm(l), [P.Symbol(OpToken(o))], ParsedForm(r));
  }

  lemma Regroup<T>(a: seq<T>, b: seq<T>, c: seq<T>, d: seq<T>)
    ensures a + b + c + d == a + (b + (c + d)) == a + (b + c + d)
  {
  }

  lemma ItemsAppend(a: seq<P.Parsed>, b: seq<P.Parsed>)
    ensures Items(a + b) == Items(a) + Items(b)
  {
    hide ItemOf;
  }

  lemma ItemsOne(x: P.Parsed)
    ensures Items([x]) == [ItemOf(x)]
  {
    hide ItemOf;
  }

  lemma OpItem(o: Op)
    ensures ItemOf(P.Symbol(OpToken(o))) == Operator(o)
  {
  }

  lemma {:induction false} FormPrints(e: Expr)
    ensures Items(ParsedForm(e)) == Print(e)
  {
    hide Items;
    match e
    case Num(v) => ItemsOne(P.Number(v));
    case Dec(n, s) =>
      assert ParsedForm(e) == [P.Number(n)] + [P.Symbol(P.SCALE)] + [P.Number(s)];
      ItemsAppend([P.Number(n)] + [P.Symbol(P.SCALE)], [P.Number(s)]);
      ItemsAppend([P.Number(n)], [P.Symbol(P.SCALE)]);
      ItemsOne(P.Number(n));
      ItemsOne(P.Symbol(P.SCALE));
      ItemsOne(P.Number(s));
    case Paren(x) =>
      FormPrints(x);
      ItemsAppend([P.Symbol(LPAREN)] + ParsedForm(x), [P.Symbol(RPAREN)]);
      ItemsAppend([P.Symbol(LPAREN)], ParsedForm(x));
      ItemsOne(P.Symbol(LPAREN));
      ItemsOne(P.Symbol(RPAREN));
    case Bin(o, l, r) =>
      FormPrints(l);
      FormPrints(r);
      ItemsAppend(ParsedForm(l) + [P.Symbol(OpToken(o))], ParsedForm(r));
      ItemsAppend(ParsedForm(l), [P.Symbol(OpToken(o))]);
      ItemsOne(P.Symbol(OpToken(o)));
      OpItem(o);
  }

  /** From tokens to value: encoding any tree with the parentheses it needs, then
      parsing and evaluating, gives the value of the tree. */
  lemma CalculatesTree(e: Expr, fl: Floats)
    requires Bracketed(e)
    ensures Calculate(Encode(e), fl) == Some(if ScalesOk(e) then Value(e, fl) else Err(BadScale))
  {
    hide Encode, Print, Evaluate, Value, ParsedForm, Items, P.FeedAll;
    FeedTree(e, [], []);
    assert Encode(e) + [] == Encode(e) && [] + ParsedForm(e) == ParsedForm(e) && Print(e) + [] == Print(e);
    P.FeedNone(AtTop(ParsedForm(e)));
    assert P.Finalized(AtTop(ParsedForm(e))) == ParsedForm(e);
    FormPrints(e);
    PrintedValue(e, [], fl);
  }

  // ----- the loops -----

  lemma ResolveStep(done: seq<Item>, rest: seq<Item>, i: Item, r: Result<seq<Item>>)
    ensures PrependAll(done, Prepend(i, r)) == PrependAll(done + [i], r)
  {
    if r.Ok? {
      assert done + ([i] + r.value) == done + [i] + r.value;
    }
  }

  lemma PrependNone(r: Result<seq<Item>>)
    ensures PrependAll([], r) == r
  {
    if r.Ok? {
      assert [] + r.value == r.value;
    }
  }

  method ResolveScaled(items: seq<Item>) returns (r: Result<seq<Item>>)
    ensures r == Resolve(items)
  {
    var out: seq<Item> := [];
    var i := 0;
    assert items[0..] == items;
    PrependNone(Resolve(items));
    while i < |items|
      invariant i <= |items|
      invariant Resolve(items) == PrependAll(out, Resolve(items[i..]))
    {
      var rest := items[i..];
      if i + 2 < |items| && items[i].Number? && items[i + 1] == Item.Scale && items[i + 2].Number? {
        if items[i + 2].value < 0 {
          return Err(BadScale);
        }
        assert rest[3..] == items[i + 3..];
        ResolveStep(out, rest, Scaled(items[i].value, items[i + 2].value), Resolve(items[i + 3..]));
        out := out + [Scaled(items[i].value, items[i + 2].value)];
        i := i + 3;
      } else {
        assert rest[1..] == items[i + 1..];
        ResolveStep(out, rest, items[i], Resolve(items[i + 1..]));
        out := out + [items[i]];
        i := i + 1;
      }
    }
    assert items[i..] == [] && out + [] == out;
    return Ok(out);
  }

  method ExtractTokens(items: seq<Item>) returns (out: seq<Item>)
    ensures out == Extract(items)
  {
    out := [];
    var i := 0;
    while i < |items|
      invariant i <= |items| && out == Extract(items[..i])
    {
      assert items[..i + 1] == items[..i] + [items[i]];
      ExtractAppend(items[..i], [items[i]]);
      ExtractOne(items[i]);
      if items[i] != Item.Scale && items[i] != Other {
        out := out + [items[i]];
      }
      i := i + 1;
    }
    assert items[..|items|] == items;
  }

  method ShuntItem(out0: seq<Item>, ops0: seq<Item>, item: Item) returns (ok: bool, out: seq<Item>, ops: seq<Item>)
    ensures ok == Shunt1(Yard(out0, ops0), item).Some?
    ensures ok ==> Yard(out, ops) == Shunt1(Yard(out0, ops0), item).value
  {
    out, ops := out0, ops0;
    match item {
      case Operator(o) =>
        while ops != [] && GivesWay(o, ops[|ops| - 1])
          invariant PopFor(Yard(out, ops), o) == PopFor(Yard(out0, ops0), o)
          decreases |ops|
        {
          out := out + [ops[|ops| - 1]];
          ops := ops[..|ops| - 1];
        }
        ops := ops + [item];
      case Open =>
        ops := ops + [Open];
      case Close =>
        while ops != [] && ops[|ops| - 1] != Open
          invariant PopToOpen(Yard(out, ops)) == PopToOpen(Yard(out0, ops0))
          decreases |ops|
        {
          out := out + [ops[|ops| - 1]];
          ops := ops[..|ops| - 1];
        }
        if ops == [] {
          return false, out, ops;
        }
        ops := ops[..|ops| - 1];
      case _ =>
        out := out + [item];
    }
    return true, out, ops;
  }

  /** Infix to reverse Polish; None for mismatched parentheses. */
  method ToRpn(infix: seq<Item>) returns (rpn: Option<seq<Item>>)
    ensures rpn == var y := Shunt(Yard([], []), infix); if y.None? then None else Drain(y.value)
  {
    var out: seq<Item>, ops: seq<Item> := [], [];
    var i := 0;
    assert infix[0..] == infix;
    while i < |infix|
      invariant i <= |infix|
      invariant Shunt(Yard(out, ops), infix[i..]) == Shunt(Yard([], []), infix)
    {
      var ok;
      assert infix[i..][1..] == infix[i + 1..];
      ok, out, ops := ShuntItem(out, ops, infix[i]);
      if !ok {
        return None;
      }
      i := i + 1;
    }
    assert infix[i..] == [];
    ghost var y := Yard(out, ops);
    while ops != []
      invariant Drain(Yard(out, ops)) == Drain(y)
      decreases |ops|
    {
      var top := ops[|ops| - 1];
      if top == Open {
        return None;
      }
      out := out + [top];
      ops := ops[..|ops| - 1];
    }
    return Some(out);
  }

  method RunStack(rpn: seq<Item>, fl: Floats) returns (r: Result<seq<Amount>>)
    ensures r == RunRpn(rpn, [], fl)
  {
    var stack: seq<Amount> := [];
    var i := 0;
    assert rpn[0..] == rpn;
    hide Apply;
    while i < |rpn|
      invariant i <= |rpn| && RunRpn(rpn[i..], stack, fl) == RunRpn(rpn, [], fl)
    {
      assert rpn[i..][1..] == rpn[i + 1..];
      match rpn[i] {
        case Number(v) => stack := stack + [Whole(v)];
        case Scaled(n, _) => stack := stack + [Whole(n)];
        case Operator(o) =>
          if |stack| < 2 {
            return Err(NeedsTwo);
          }
          var b := stack[|stack| - 1];
          var a := stack[|stack| - 2];
          var v := Apply(o, a, b, fl);
          if v.Err? {
            return Err(v.error);
          }
          stack := stack[..|stack| - 2] + [v.value];
        case _ =>
      }
      i := i + 1;
    }
    assert rpn[i..] == [];
    return Ok(stack);
  }

  method EvaluateParsed(items: seq<Item>, fl: Floats) returns (r: Result<Amount>)
    ensures r == Evaluate(items, fl)
  {
    var resolved := ResolveScaled(items);
    if resolved.Err? {
      return Err(resolved.error);
    }
    var infix := ExtractTokens(resolved.value);
    if infix == [] {
      return Ok(Whole(0));
    }
    if |infix| == 1 && infix[0].Number? {
      return Ok(Whole(infix[0].value));
    }
    if |infix| == 1 && infix[0].Scaled? {
      return Ok(Whole(infix[0].numerator));
    }
    var rpn := ToRpn(infix);
    if rpn.None? {
      return Err(Mismatched);
    }
    var stack := RunStack(rpn.value, fl);
    if stack.Err? {
      return Err(stack.error);
    }
    return Ok(if stack.value == [] then Whole(0) else stack.value[|stack.value| - 1]);
  }

  /** Inserting an expression, from its tokens to its value. */
  method InsertExpression(tokens: seq<Token>, fl: Floats) returns (r: Option<Result<Amount>>)
    ensures r == Calculate(tokens, fl)
  {
    var parser := new P.Parser();
    var ok := parser.AcceptAll(tokens);
    if !ok {
      return None;
    }
    parser.Finalize();
    var v := EvaluateParsed(Items(parser.output), fl);
    return Some(v);
  }
}
