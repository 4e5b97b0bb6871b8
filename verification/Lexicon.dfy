/** The 32-token alphabet in its numeric context, and the integer codec that
    programs and records share (python/binary_grid_db.py, python/griddb_interp.py). */
module Lexicon {

  type Token = t: int | 0 <= t < 32

  const PLUS: Token := 10
  const MINUS: Token := 11
  const MUL: Token := 12
  const DIV: Token := 13
  const EMIT: Token := 14
  const LPAREN: Token := 15
  const RPAREN: Token := 16
  const RECORD: Token := 28
  const CHECKSUM: Token := 29
  const END: Token := 30
  const START: Token := 31

  predicate IsDigit(t: Token) {
    0 <= t <= 9
  }

  predicate IsNeg(t: Token) {
    17 <= t <= 25
  }

  type Digit = d: int | 0 <= d <= 9

  function DigitOf(t: Token): Digit
    requires IsDigit(t) || IsNeg(t)
  {
    if IsDigit(t) then t else t - 16
  }

  // ----- integers -----

  /** The decimal digits of a natural number, most significant first. */
  function Digits(n: nat): (ds: seq<Digit>)
    ensures ds != []
    ensures n > 0 ==> ds[0] > 0
  {
    if n < 10 then [n] else Digits(n / 10) + [n % 10]
  }

  /** The value of a digit string read most significant first. */
  function FoldDigits(ds: seq<Digit>, acc: int): int {
    if ds == [] then acc else FoldDigits(ds[1..], acc * 10 + ds[0])
  }

  predicate AnyNonzero(ds: seq<Digit>) {
    ds != [] && (ds[0] != 0 || AnyNonzero(ds[1..]))
  }

  function SignDigit(d: Digit, neg: bool): Token {
    if neg && d != 0 then 16 + d else d
  }

  function SignDigits(ds: seq<Digit>, neg: bool): (ts: seq<Token>)
    ensures |ts| == |ds|
  {
    if ds == [] then [] else [SignDigit(ds[0], neg)] + SignDigits(ds[1..], neg)
  }

  function Abs(v: int): nat {
    if v < 0 then -v else v
  }

  function Signed(v: int, neg: bool): int {
    if neg then -v else v
  }

  /** Division as Python's // does it: towards minus infinity. */
  function FloorDiv(a: int, b: int): int
    requires b != 0
  {
    if b > 0 then a / b else (-a) / (-b)
  }

  /** Signed-digit tokens closed by END; a zero digit is D0 under either sign. */
  function EncodeInteger(v: int): seq<Token> {
    SignDigits(Digits(Abs(v)), v < 0) + [END]
  }

  /** Reads a number at pos: digits accumulate, a negative digit makes the whole
      number negative, END is consumed, anything else stops the reader. */
  function ReadInt(toks: seq<Token>, pos: nat, end: nat, acc: int := 0, neg: bool := false): (r: (int, nat))
    requires end <= |toks|
    ensures r.1 >= pos
    ensures pos <= end ==> r.1 <= end
    decreases end - pos
  {
    if pos < end && (IsDigit(toks[pos]) || IsNeg(toks[pos])) then
      ReadInt(toks, pos + 1, end, acc * 10 + DigitOf(toks[pos]), neg || IsNeg(toks[pos]))
    else if pos < end && toks[pos] == END then
      (Signed(acc, neg), pos + 1)
    else
      (Signed(acc, neg), pos)
  }

  /** All the integers of a record: each run of digits closed by END or RECORD. */
  function ParseInts(toks: seq<Token>, digits: seq<Digit> := [], neg: bool := false): seq<int> {
    if toks == [] then []
    else
      var t := toks[0];
      if IsDigit(t) || IsNeg(t) then ParseInts(toks[1..], digits + [DigitOf(t)], neg || IsNeg(t))
      else if (t == END || t == RECORD) && digits != [] then
        [Signed(FoldDigits(digits, 0), neg)] + ParseInts(toks[1..])
      else ParseInts(toks[1..], digits, neg)
  }

  lemma {:induction false} FoldAppend(ds: seq<Digit>, d: Digit, acc: int)
    ensures FoldDigits(ds + [d], acc) == FoldDigits(ds, acc) * 10 + d
  {
    if ds == [] {
      assert ([d])[1..] == [];
    } else {
      assert (ds + [d])[1..] == ds[1..] + [d];
      FoldAppend(ds[1..], d, acc * 10 + ds[0]);
    }
  }

  /** Decimal digits determine the number. */
  lemma {:induction false} DigitsValue(n: nat)
    ensures FoldDigits(Digits(n), 0) == n
  {
    if n < 10 {
      assert [n][1..] == [];
    } else {
      DigitsValue(n / 10);
      FoldAppend(Digits(n / 10), n % 10, 0);
    }
  }

  lemma {:induction false} ReadSigned(toks: seq<Token>, pos: nat, end: nat, ds: seq<Digit>, signed: bool, acc: int,
      neg: bool)
    requires end <= |toks| && pos + |ds| < end
    requires toks[pos..pos + |ds|] == SignDigits(ds, signed)
    requires toks[pos + |ds|] == END
    ensures ReadInt(toks, pos, end, acc, neg)
         == (Signed(FoldDigits(ds, acc), neg || (signed && AnyNonzero(ds))), pos + |ds| + 1)
    decreases ds
  {
    if ds != [] {
      assert toks[pos] == toks[pos..pos + |ds|][0] == SignDigit(ds[0], signed);
      assert toks[pos + 1..pos + 1 + |ds[1..]|] == toks[pos..pos + |ds|][1..] == SignDigits(ds[1..], signed);
      ReadSigned(toks, pos + 1, end, ds[1..], signed, acc * 10 + ds[0], neg || IsNeg(toks[pos]));
    }
  }

  /** Reading an encoded integer, wherever it stands, gives it back and stops
      just past its END. */
  lemma ReadEncoded(toks: seq<Token>, pos: nat, end: nat, v: int)
    requires end <= |toks| && pos + |EncodeInteger(v)| <= end
    requires toks[pos..pos + |EncodeInteger(v)|] == EncodeInteger(v)
    ensures ReadInt(toks, pos, end) == (v, pos + |EncodeInteger(v)|)
  {
    var ds := Digits(Abs(v));
    DigitsValue(Abs(v));
    var e := EncodeInteger(v);
    assert toks[pos..pos + |ds|] == toks[pos..pos + |e|][..|ds|] == SignDigits(ds, v < 0);
    assert toks[pos + |ds|] == toks[pos..pos + |e|][|ds|] == END;
    ReadSigned(toks, pos, end, ds, v < 0, 0, false);
  }

  lemma {:induction false} ParseSigned(ds: seq<Digit>, signed: bool, rest: seq<Token>, pre: seq<Digit>, neg: bool)
    ensures ParseInts(SignDigits(ds, signed) + rest, pre, neg)
         == ParseInts(rest, pre + ds, neg || (signed && AnyNonzero(ds)))
    decreases ds
  {
    var ts := SignDigits(ds, signed) + rest;
    if ds == [] {
      assert ts == rest && pre + ds == pre;
    } else {
      assert ts[1..] == SignDigits(ds[1..], signed) + rest;
      assert pre + ds == (pre + [ds[0]]) + ds[1..];
      assert ts[0] == SignDigit(ds[0], signed);
      assert DigitOf(ts[0]) == ds[0];
      ParseSigned(ds[1..], signed, rest, pre + [ds[0]], neg || IsNeg(ts[0]));
    }
  }

  lemma {:induction false} ParseClosed(digits: seq<Digit>, neg: bool)
    requires digits != []
    ensures ParseInts([END, RECORD], digits, neg) == [Signed(FoldDigits(digits, 0), neg)]
  {
    assert [END, RECORD][1..] == [RECORD];
    assert [RECORD][1..] == [];
    assert ParseInts([RECORD]) == [];
  }

  /** A stored record of one integer reads back as that integer. */
  lemma StoredReadsBack(v: int)
    ensures ParseInts(EncodeInteger(v) + [RECORD]) == [v]
  {
    var ds := Digits(Abs(v));
    DigitsValue(Abs(v));
    assert EncodeInteger(v) + [RECORD] == SignDigits(ds, v < 0) + [END, RECORD];
    ParseSigned(ds, v < 0, [END, RECORD], [], false);
    assert [] + ds == ds;
    ParseClosed(ds, v < 0);
  }

  // ----- verbs and regions -----

  const DEF: Token := 6
  const CALL: Token := 7
  const RET: Token := 8
  const IF: Token := 9
  const LOOP: Token := 10
  const BREAK: Token := 11
  const STORE: Token := 12
  const READ: Token := 13
  const LOADX: Token := 18
  const STOREX: Token := 19

  predicate HasArg(cmd: Token) {
    cmd == DEF || cmd == CALL || cmd == STORE || cmd == READ
  }

  /** START x 4 at pos: the opening of a verb. */
  predicate IsVerb(toks: seq<Token>, pos: nat) {
    pos + 4 <= |toks| && toks[pos..pos + 4] == [START, START, START, START]
  }

  function Verb(cmd: Token): seq<Token> {
    [START, START, START, START, cmd, END, END, END, END]
  }

  function VerbArg(cmd: Token, arg: int): seq<Token> {
    Verb(cmd) + EncodeInteger(arg)
  }

  function Region(body: seq<Token>): seq<Token> {
    [LPAREN] + body + [RPAREN]
  }

  function Program(slot: int, body: seq<Token>): seq<Token> {
    VerbArg(DEF, slot) + body + [RECORD]
  }

  datatype Option<+T> = None | Some(value: T)

  /** Balanced-paren skip: the close of the first region opened at or after pos. */
  function Match(toks: seq<Token>, pos: nat, end: nat, depth: int := 0): (r: Option<nat>)
    requires end <= |toks|
    ensures r.Some? ==> pos <= r.value < end && toks[r.value] == RPAREN
    ensures r.Some? && depth == 0 && toks[pos] == LPAREN ==> pos < r.value
    decreases end - pos
  {
    if pos >= end then None
    else if toks[pos] == LPAREN then Match(toks, pos + 1, end, depth + 1)
    else if toks[pos] == RPAREN then
      if depth == 1 then Some(pos) else Match(toks, pos + 1, end, depth - 1)
    else Match(toks, pos + 1, end, depth)
  }

  /** Each region's body lies after pos and closes before limit. */
  predicate RegionsIn(toks: seq<Token>, pos: nat, limit: nat, regions: seq<(nat, nat)>)
    requires limit <= |toks|
  {
    forall a :: a in regions ==> pos < a.0 <= a.1 < limit && toks[a.1] == RPAREN
  }

  /** The bodies of up to max consecutive regions opening in [pos, end), each
      closed before limit, and the position after them; None when a region is
      unbalanced. */
  function Arms(toks: seq<Token>, pos: nat, end: nat, limit: nat, max: nat): (r: Option<(seq<(nat, nat)>, nat)>)
    requires end <= limit <= |toks|
    ensures r.Some? ==> |r.value.0| <= max && r.value.1 >= pos
    ensures r.Some? ==> RegionsIn(toks, pos, limit, r.value.0)
    ensures r.Some? && pos <= limit ==> r.value.1 <= limit
    ensures r.Some? && r.value.0 != [] ==> pos < r.value.1
    decreases max
  {
    if max == 0 || pos >= end || toks[pos] != LPAREN then Some(([], pos))
    else
      var m := Match(toks, pos, limit);
      if m.None? then None
      else
        var rest := Arms(toks, m.value + 1, end, limit, max - 1);
        if rest.None? then None
        else Some(([(pos + 1, m.value)] + rest.value.0, rest.value.1))
  }
}
