/** The record parser of python/binary_grid_db.py: five nested contexts that give
    the same 28 tokens five readings, and four control tokens that move between
    them. */
module TokenParser {
  import opened Lexicon

  const EQ: Token := 14
  const POW: Token := 26
  const SCALE: Token := 27

  datatype Context = Num | Word | Special | Special2 | Special3

  datatype Parsed =
    | Number(value: int)
    | Text(text: string)
    /** An operator, parenthesis or scale annotation. */
    | Symbol(token: Token)
    | Command(cmd: Token)
    | Mark

  /** pending holds signed digits in Num and token codes elsewhere. */
  datatype Parsing = Parsing(ctx: Context, pending: seq<int>, out: seq<Parsed>)

  const START_STATE := Parsing(Num, [], [])

  // ----- the tables -----

  function WordChar(t: int): char
    requires 0 <= t <= 27
  {
    if t < 26 then (t + 65) as char else if t == 26 then ' ' else '.'
  }

  function SpecialChar(t: int): char
    requires 0 <= t <= 27
  {
    if t < 26 then (t + 97) as char else if t == 26 then '@' else '-'
  }

  const PUNCTUATION: string := "!\"#$%&'()*+,/:;<=>?[\\]^_`{|}"

  function Special2Char(t: int): char
    requires 0 <= t <= 27
  {
    PUNCTUATION[t]
  }

  function CharIn(ctx: Context, t: int): char {
    if !(0 <= t <= 27) then '?'
    else match ctx
      case Word => WordChar(t)
      case Special => SpecialChar(t)
      case Special2 => Special2Char(t)
      case _ => '?'
  }

  function Chars(ctx: Context, ts: seq<int>): string {
    seq(|ts|, i requires 0 <= i < |ts| => CharIn(ctx, ts[i]))
  }

  predicate IsDigitToken(t: Token) {
    IsDigit(t) || IsNeg(t)
  }

  function DigitValue(t: Token): int
    requires IsDigitToken(t)
  {
    if IsDigit(t) then t else 16 - t
  }

  /** The value of signed digits, most significant first. */
  function SignedValue(ds: seq<int>): int {
    if ds == [] then 0 else SignedValue(ds[..|ds| - 1]) * 10 + ds[|ds| - 1]
  }

  predicate IsCommand(t: int) {
    0 <= t <= 5
  }

  // ----- the machine -----

  /** What the pending tokens become when the context is left: a number if there
      are digits, a word even when empty, a command if there is one. */
  function Closing(p: Parsing): seq<Parsed> {
    match p.ctx
    case Num => if p.pending == [] then [] else [Number(SignedValue(p.pending))]
    case Special3 => if p.pending != [] && IsCommand(p.pending[0]) then [Command(p.pending[0])] else []
    case _ => [Text(Chars(p.ctx, p.pending))]
  }

  function Into(p: Parsing, ctx: Context, more: seq<Parsed>): Parsing {
    Parsing(ctx, [], p.out + Closing(p) + more)
  }

  function Deeper(ctx: Context): Context {
    match ctx
    case Num => Word
    case Word => Special
    case Special => Special2
    case Special2 => Special3
    case Special3 => Special3
  }

  function Shallower(ctx: Context): Context {
    match ctx
    case Num => Num
    case Word => Num
    case Special => Word
    case Special2 => Special
    case Special3 => Special2
  }

  /** One token; None for a token the command context does not know. */
  function Feed(p: Parsing, t: Token): Option<Parsing> {
    if t == START then Some(if p.ctx == Special3 then p else Into(p, Deeper(p.ctx), []))
    else if t == END then Some(Into(p, Shallower(p.ctx), []))
    else if t == RECORD then Some(Into(p, Num, [Mark]))
    else if t == CHECKSUM then Some(Into(p, Num, []))
    else
      match p.ctx
      case Num =>
        if IsDigitToken(t) then Some(p.(pending := p.pending + [DigitValue(t)]))
        else Some(Into(p, Num, [Symbol(t)]))
      case Special3 => if IsCommand(t) then Some(p.(pending := p.pending + [t])) else None
      case _ => Some(p.(pending := p.pending + [t]))
  }

  function FeedAll(p: Parsing, ts: seq<Token>): Option<Parsing>
    decreases |ts|
  {
    if ts == [] then Some(p)
    else
      var q := Feed(p, ts[0]);
      if q.None? then None else FeedAll(q.value, ts[1..])
  }

  /** The output once the parser is told the stream has ended. */
  function Finalized(p: Parsing): seq<Parsed> {
    p.out + Closing(p)
  }

  lemma FeedOne(p: Parsing, t: Token, rest: seq<Token>)
    ensures FeedAll(p, [t] + rest) == if Feed(p, t).None? then None else FeedAll(Feed(p, t).value, rest)
  {
    hide Feed;
    assert ([t] + rest)[1..] == rest;
  }

  lemma FeedNone(p: Parsing)
    ensures FeedAll(p, []) == Some(p)
  {
  }

  // ----- integers -----

  function SignedDigits(ds: seq<Digit>, neg: bool): (r: seq<int>)
    ensures |r| == |ds|
  {
    seq(|ds|, i requires 0 <= i < |ds| => Signed(ds[i], neg))
  }

  lemma FeedDigit(p: Parsing, d: Digit, neg: bool)
    requires p.ctx == Num
    ensures Feed(p, SignDigit(d, neg)) == Some(p.(pending := p.pending + [Signed(d, neg)]))
  {
  }

  lemma {:induction false} FeedDigits(ds: seq<Digit>, neg: bool, p: Parsing, rest: seq<Token>)
    requires p.ctx == Num
    ensures FeedAll(p, SignDigits(ds, neg) + rest) == FeedAll(p.(pending := p.pending + SignedDigits(ds, neg)), rest)
    decreases |ds|
  {
    hide Feed;
    if ds == [] {
      assert SignDigits(ds, neg) + rest == rest && p.pending + SignedDigits(ds, neg) == p.pending;
    } else {
      var t := SignDigit(ds[0], neg);
      var more := SignDigits(ds[1..], neg) + rest;
      assert SignDigits(ds, neg) + rest == [t] + more;
      FeedOne(p, t, more);
      FeedDigit(p, ds[0], neg);
      var q := p.(pending := p.pending + [Signed(ds[0], neg)]);
      FeedDigits(ds[1..], neg, q, rest);
      assert q.pending + SignedDigits(ds[1..], neg) == p.pending + SignedDigits(ds, neg);
    }
  }

  lemma {:induction false} SignedDigitsValue(ds: seq<Digit>, neg: bool)
    ensures SignedValue(SignedDigits(ds, neg)) == Signed(FoldDigits(ds, 0), neg)
    decreases |ds|
  {
    if ds != [] {
      var k := |ds| - 1;
      var init, last := ds[..k], ds[k];
      assert ds == init + [last];
      assert SignedDigits(ds, neg)[..k] == SignedDigits(init, neg);
      SignedDigitsValue(init, neg);
      FoldAppend(init, last, 0);
    }
  }

  /** An encoded integer goes through the parser as one number. */
  lemma FeedInteger(v: int, out: seq<Parsed>, rest: seq<Token>)
    ensures FeedAll(Parsing(Num, [], out), EncodeInteger(v) + rest)
            == FeedAll(Parsing(Num, [], out + [Number(v)]), rest)
  {
    hide *;
    var ds := Digits(Abs(v));
    var p := Parsing(Num, [], out);
    var q := Parsing(Num, SignedDigits(ds, v < 0), out);
    IntegerParts(v, rest);
    FeedDigits(ds, v < 0, p, [END] + rest);
    assert p.pending + SignedDigits(ds, v < 0) == SignedDigits(ds, v < 0);
    FeedOne(q, END, rest);
    SignedDigitsValue(ds, v < 0);
    DigitsValue(Abs(v));
    SignedAbs(v);
    EndsNumber(q, v);
  }

  lemma IntegerParts(v: int, rest: seq<Token>)
    ensures Digits(Abs(v)) != []
    ensures EncodeInteger(v) + rest == SignDigits(Digits(Abs(v)), v < 0) + ([END] + rest)
  {
    hide Digits, SignDigits;
  }

  lemma SignedAbs(v: int)
    ensures Signed(Abs(v), v < 0) == v
  {
  }

  lemma EndsNumber(q: Parsing, v: int)
    requires q.ctx == Num && q.pending != [] && SignedValue(q.pending) == v
    ensures Feed(q, END) == Some(Parsing(Num, [], q.out + [Number(v)]))
  {
    hide SignedValue;
    assert q.out + [Number(v)] + [] == q.out + [Number(v)];
  }

  // ----- the numbers of a record -----

  function NumbersOf(xs: seq<Parsed>): seq<int> {
    if xs == [] then []
    else (if xs[0].Number? then [xs[0].value] else []) + NumbersOf(xs[1..])
  }

  /** The numbers a reader of the record sees, in order. */
  function NumbersIn(tokens: seq<Token>): seq<int> {
    var p := FeedAll(START_STATE, tokens);
    if p.None? then [] else NumbersOf(Finalized(p.value))
  }

  /** A record of one integer, closed or not, holds that number. */
  lemma OneNumber(v: int)
    ensures NumbersIn(EncodeInteger(v)) == [v]
    ensures NumbersIn(EncodeInteger(v) + [RECORD]) == [v]
  {
    hide *;
    var none: seq<Token> := [];
    FeedInteger(v, [], none);
    FeedInteger(v, [], [RECORD]);
    assert EncodeInteger(v) + none == EncodeInteger(v);
    var p := Parsing(Num, [], [] + [Number(v)]);
    FeedNone(p);
    FeedOne(p, RECORD, none);
    assert [RECORD] + none == [RECORD];
    ClosesRecord(v);
    FeedNone(Parsing(Num, [], [Number(v), Mark]));
    NumbersAre(EncodeInteger(v), p);
    NumbersAre(EncodeInteger(v) + [RECORD], Parsing(Num, [], [Number(v), Mark]));
    OneAndMark(v);
  }

  /** Integers end to end, as records hold them. */
  function EncodeAll(nums: seq<int>): seq<Token> {
    if nums == [] then [] else EncodeInteger(nums[0]) + EncodeAll(nums[1..])
  }

  function Numbers(nums: seq<int>): (xs: seq<Parsed>)
    ensures |xs| == |nums|
  {
    seq(|nums|, i requires 0 <= i < |nums| => Number(nums[i]))
  }

  lemma {:induction false} FeedIntegers(nums: seq<int>, out: seq<Parsed>, rest: seq<Token>)
    ensures FeedAll(Parsing(Num, [], out), EncodeAll(nums) + rest)
            == FeedAll(Parsing(Num, [], out + Numbers(nums)), rest)
    decreases |nums|
  {
    hide FeedAll, EncodeInteger;
    if nums == [] {
      assert EncodeAll(nums) + rest == rest && out + Numbers(nums) == out;
    } else {
      var more := EncodeAll(nums[1..]) + rest;
      assert EncodeAll(nums) + rest == EncodeInteger(nums[0]) + more;
      FeedInteger(nums[0], out, more);
      FeedIntegers(nums[1..], out + [Number(nums[0])], rest);
      assert out + [Number(nums[0])] + Numbers(nums[1..]) == out + Numbers(nums);
    }
  }

  lemma {:induction false} NumbersThenMark(nums: seq<int>)
    ensures NumbersOf(Numbers(nums) + [Mark]) == nums
    decreases |nums|
  {
    if nums == [] {
      assert Numbers(nums) + [Mark] == [Mark] && |[Mark][1..]| == 0;
      assert NumbersOf([Mark]) == [] + NumbersOf([Mark][1..]);
    } else {
      assert (Numbers(nums) + [Mark])[1..] == Numbers(nums[1..]) + [Mark];
      NumbersThenMark(nums[1..]);
    }
  }

  /** A record of integers reads back as those integers. */
  lemma RecordOfNumbers(nums: seq<int>)
    ensures NumbersIn(EncodeAll(nums) + [RECORD]) == nums
  {
    hide *;
    FeedIntegers(nums, [], [RECORD]);
    var xs := Numbers(nums);
    assert [] + xs == xs;
    var none: seq<Token> := [];
    FeedOne(Parsing(Num, [], xs), RECORD, none);
    assert [RECORD] + none == [RECORD];
    MarksAfter(xs);
    FeedNone(Parsing(Num, [], xs + [Mark]));
    NumbersAre(EncodeAll(nums) + [RECORD], Parsing(Num, [], xs + [Mark]));
    NumbersThenMark(nums);
  }

  lemma MarksAfter(xs: seq<Parsed>)
    ensures Feed(Parsing(Num, [], xs), RECORD) == Some(Parsing(Num, [], xs + [Mark]))
  {
    assert xs + [] + [Mark] == xs + [Mark];
  }

  lemma ClosesRecord(v: int)
    ensures Feed(Parsing(Num, [], [] + [Number(v)]), RECORD) == Some(Parsing(Num, [], [Number(v), Mark]))
  {
    var one := [] + [Number(v)];
    assert one == [Number(v)] && one + [] + [Mark] == [Number(v), Mark];
  }

  lemma NumbersAre(tokens: seq<Token>, p: Parsing)
    requires FeedAll(Parsing(Num, [], []), tokens) == Some(p) && p.ctx == Num && p.pending == []
    ensures NumbersIn(tokens) == NumbersOf(p.out)
  {
    hide FeedAll, NumbersOf;
    assert Finalized(p) == p.out;
  }

  lemma OneAndMark(v: int)
    ensures NumbersOf([] + [Number(v)]) == [v] && NumbersOf([Number(v), Mark]) == [v]
  {
    assert [] + [Number(v)] == [Number(v)];
    assert |[Number(v)][1..]| == 0 && [Number(v), Mark][1..] == [Mark] && |[Mark][1..]| == 0;
    assert NumbersOf([]) == [];
    assert NumbersOf([Mark]) == [] + NumbersOf([Mark][1..]);
    assert NumbersOf([Number(v)]) == [v] + NumbersOf([Number(v)][1..]);
    assert NumbersOf([Number(v), Mark]) == [v] + NumbersOf([Mark]);
  }

  // ----- the object -----

  function PowerOfTen(n: nat): nat {
    if n == 0 then 1 else 10 * PowerOfTen(n - 1)
  }

  class Parser {
    var ctx: Context
    var pending: seq<int>
    var output: seq<Parsed>

    ghost function State(): Parsing
      reads this
    {
      Parsing(ctx, pending, output)
    }

    constructor ()
      ensures State() == START_STATE
    {
      ctx, pending, output := Num, [], [];
    }

    /** The digits added up, each times its power of ten. */
    method NumberValue() returns (value: int)
      ensures value == SignedValue(pending)
    {
      value := 0;
      var n, i := |pending|, 0;
      assert pending[..0] == [];
      while i < n
        invariant 0 <= i <= n == |pending|
        invariant value == SignedValue(pending[..i]) * PowerOfTen(n - i)
      {
        assert pending[..i + 1][..i] == pending[..i];
        Weigh(SignedValue(pending[..i]), pending[i], PowerOfTen(n - 1 - i));
        value := value + pending[i] * PowerOfTen(n - 1 - i);
        i := i + 1;
      }
      assert pending[..n] == pending;
    }

    /** Puts out what is pending, as its context reads it. */
    method Finalize()
      modifies this
      ensures ctx == old(ctx) && pending == [] && output == Finalized(old(State()))
    {
      if ctx == Num {
        if pending != [] {
          var v := NumberValue();
          output := output + [Number(v)];
        }
      } else if ctx == Special3 {
        if pending != [] && IsCommand(pending[0]) {
          output := output + [Command(pending[0])];
        }
      } else {
        output := output + [Text(Chars(ctx, pending))];
      }
      pending := [];
    }

    /** False for a token that is an error here. */
    method Accept(t: Token) returns (ok: bool)
      modifies this
      ensures ok == Feed(old(State()), t).Some?
      ensures ok ==> State() == Feed(old(State()), t).value
    {
      if t == START {
        if ctx != Special3 {
          Finalize();
          ctx := Deeper(ctx);
        }
      } else if t == END {
        Finalize();
        ctx := Shallower(ctx);
      } else if t == RECORD {
        Finalize();
        ctx := Num;
        output := output + [Mark];
      } else if t == CHECKSUM {
        Finalize();
        ctx := Num;
      } else if ctx == Num && IsDigitToken(t) {
        pending := pending + [DigitValue(t)];
      } else if ctx == Num {
        Finalize();
        output := output + [Symbol(t)];
      } else if ctx == Special3 && !IsCommand(t) {
        return false;
      } else {
        pending := pending + [t];
      }
      return true;
    }

    /** Feeds a whole stream; false as soon as a token is an error. */
    method AcceptAll(tokens: seq<Token>) returns (ok: bool)
      modifies this
      ensures ok == FeedAll(old(State()), tokens).Some?
      ensures ok ==> State() == FeedAll(old(State()), tokens).value
    {
      hide Feed;
      var i := 0;
      assert tokens[0..] == tokens;
      while i < |tokens|
        invariant i <= |tokens|
        invariant FeedAll(State(), tokens[i..]) == FeedAll(old(State()), tokens)
      {
        assert tokens[i..][1..] == tokens[i + 1..];
        ok := Accept(tokens[i]);
        if !ok {
          return false;
        }
        i := i + 1;
      }
      assert tokens[i..] == [];
      return true;
    }
  }

  lemma Weigh(v: int, d: int, p: int)
    ensures v * (10 * p) + d * p == (v * 10 + d) * p
  {
  }
}
