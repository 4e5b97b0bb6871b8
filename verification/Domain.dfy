/** The programs the native backend is for: what it compiles with the meaning
    the walker gives it. Static conditions on the tokens of one program. */
module Domain {
  import opened Lexicon
  import opened Backend

  /** A range of tokens that ends at the record's end or at a region's close. */
  predicate Closed(toks: seq<Token>, hi: nat) {
    hi == |toks| || (hi < |toks| && toks[hi] == RPAREN)
  }

  /** The tokens [i, hi) use no DIV, LOADX or STOREX, READ and STORE slots the
      arena has, BREAK only inside a LOOP of this range or around it, balanced
      regions, and RECORD only at the top level. */
  predicate Sound(toks: seq<Token>, i: nat, hi: nat, inLoop: bool, top: bool)
    requires hi <= |toks|
    decreases |toks| - i, 1
  {
    if i >= hi then i == hi
    else if toks[i] == RECORD then top
    else
      var n := SoundOne(toks, i, hi, inLoop);
      n.Some? && Sound(toks, n.value, hi, inLoop, top)
  }

  /** The position after the construct at i, when it is in the domain. */
  function SoundOne(toks: seq<Token>, i: nat, hi: nat, inLoop: bool): (r: Option<nat>)
    requires i < hi <= |toks|
    ensures r.Some? ==> i < r.value <= hi
    decreases |toks| - i, 0
  {
    var t := toks[i];
    if t == START && IsVerb(toks, i) then
      if i + 9 > hi then None
      else
        var cmd := toks[i + 4];
        var (arg, p) := if HasArg(cmd) then ReadInt(toks, i + 9, hi) else (0, i + 9);
        SoundVerb(cmd, arg, toks, p, hi, inLoop)
    else if IsDigit(t) || IsNeg(t) then
      ReadIntAdvances(toks, i, hi);
      Some(ReadInt(toks, i, hi).1)
    else if t == DIV then None
    else if t == LPAREN then
      var m := Match(toks, i, hi);
      if m.Some? && Sound(toks, i + 1, m.value, inLoop, false) then Some(m.value + 1) else None
    else Some(i + 1)
  }

  function SoundVerb(cmd: Token, arg: int, toks: seq<Token>, p: nat, hi: nat, inLoop: bool): (r: Option<nat>)
    requires p <= hi <= |toks|
    ensures r.Some? ==> p <= r.value <= hi
    decreases |toks| - p, 2
  {
    if cmd == LOADX || cmd == STOREX then None
    else if cmd == READ || cmd == STORE then
      if 0 <= arg < NSLOT then Some(p) else None
    else if cmd == BREAK then
      if inLoop then Some(p) else None
    else if cmd == IF then
      var arms := Arms(toks, p, hi, hi, 3);
      if arms.Some? && (forall a :: a in arms.value.0 ==> Sound(toks, a.0, a.1, inLoop, false))
      then Some(arms.value.1) else None
    else if cmd == LOOP then
      if p < hi && toks[p] == LPAREN then
        var m := Match(toks, p, hi);
        if m.Some? && Sound(toks, p + 1, m.value, true, false) then Some(m.value + 1) else None
      else None
    else Some(p)
  }

  /** A loadable record whose body is in the domain. */
  predicate SoundProgram(slot: int, toks: seq<Token>) {
    VerbArg(DEF, slot) <= toks && Sound(toks, |VerbArg(DEF, slot)|, |toks|, false, true)
  }

  // ----- scanning to the end of the range or of the record is the same -----

  lemma {:induction false} ReadIntClosed(toks: seq<Token>, p: nat, hi: nat, acc: int, neg: bool)
    requires p <= hi <= |toks| && Closed(toks, hi)
    ensures ReadInt(toks, p, |toks|, acc, neg) == ReadInt(toks, p, hi, acc, neg)
    decreases hi - p
  {
    if p < hi && (IsDigit(toks[p]) || IsNeg(toks[p])) {
      ReadIntClosed(toks, p + 1, hi, acc * 10 + DigitOf(toks[p]), neg || IsNeg(toks[p]));
    }
  }

  lemma {:induction false} MatchMono(toks: seq<Token>, p: nat, hi: nat, depth: int)
    requires p <= hi <= |toks| && Match(toks, p, hi, depth).Some?
    ensures Match(toks, p, |toks|, depth) == Match(toks, p, hi, depth)
    decreases hi - p
  {
    if toks[p] == LPAREN {
      MatchMono(toks, p + 1, hi, depth + 1);
    } else if toks[p] == RPAREN {
      if depth != 1 {
        MatchMono(toks, p + 1, hi, depth - 1);
      }
    } else {
      MatchMono(toks, p + 1, hi, depth);
    }
  }

  lemma {:induction false} ArmsMono(toks: seq<Token>, p: nat, hi: nat, max: nat)
    requires p <= hi <= |toks| && Arms(toks, p, hi, hi, max).Some?
    ensures Arms(toks, p, hi, |toks|, max) == Arms(toks, p, hi, hi, max)
    decreases max
  {
    hide Match, RegionsIn;
    if max > 0 && p < hi && toks[p] == LPAREN {
      MatchMono(toks, p, hi, 0);
      ArmsMono(toks, Match(toks, p, hi).value + 1, hi, max - 1);
    }
  }

  /** The compiler moves on to where the domain says the next construct is. */
  lemma CompilerNext(toks: seq<Token>, i: nat, hi: nat, inLoop: bool, o: Obj, loops: seq<(Label, Label)>)
    requires i < hi <= |toks| && Closed(toks, hi)
    requires SoundOne(toks, i, hi, inLoop).Some? && BodyOne(toks, i, hi, o, loops).Some?
    ensures BodyOne(toks, i, hi, o, loops).value.1 == SoundOne(toks, i, hi, inLoop).value
  {
    var t := toks[i];
    if t == START && IsVerb(toks, i) {
      ReadIntClosed(toks, i + 9, hi, 0, false);
      var cmd := toks[i + 4];
      var (arg, p) := if HasArg(cmd) then ReadInt(toks, i + 9, hi) else (0, i + 9);
      if cmd == IF {
        ArmsMono(toks, p, hi, 3);
      } else if cmd == LOOP {
        MatchMono(toks, p, hi, 0);
      }
    } else if IsDigit(t) || IsNeg(t) {
      ReadIntClosed(toks, i, hi, 0, false);
    } else if t == LPAREN {
      MatchMono(toks, i, hi, 0);
    }
  }

  // ----- headers -----

  lemma {:induction false} SkipTo(toks: seq<Token>, i: nat, e: nat)
    requires i <= e < |toks| && toks[e] == END
    requires forall q :: i <= q < e ==> toks[q] != END
    ensures SkipHeader(toks, i) == e + 1
    decreases e - i
  {
    if i < e {
      SkipTo(toks, i + 1, e);
    }
  }

  lemma {:induction false} DigitsNotEnd(ds: seq<Digit>, neg: bool)
    ensures forall q :: 0 <= q < |ds| ==> SignDigits(ds, neg)[q] == SignDigit(ds[q], neg)
    decreases |ds|
  {
    if ds != [] {
      DigitsNotEnd(ds[1..], neg);
      forall q | 0 <= q < |ds| ensures SignDigits(ds, neg)[q] == SignDigit(ds[q], neg) {
        if q > 0 {
          assert SignDigits(ds, neg)[q] == SignDigits(ds[1..], neg)[q - 1];
        }
      }
    }
  }

  /** The compiler starts a loaded record's body just past its DEF header. */
  lemma HeaderSkipped(slot: int, toks: seq<Token>)
    requires VerbArg(DEF, slot) <= toks
    ensures SkipHeader(toks) == |VerbArg(DEF, slot)|
    ensures IsVerb(toks, 0) && toks[4] == DEF
    ensures ReadInt(toks, 9, |toks|) == (slot, |VerbArg(DEF, slot)|)
  {
    var h := VerbArg(DEF, slot);
    var e := EncodeInteger(slot);
    var ds := Digits(Abs(slot));
    assert toks[..|h|] == h && h[9..] == e;
    assert toks[9..9 + |e|] == toks[..|h|][9..];
    ReadEncoded(toks, 9, |toks|, slot);
    DigitsNotEnd(ds, slot < 0);
    forall q | 9 <= q < |h| - 1 ensures toks[q] != END {
      assert toks[q] == h[q] == e[q - 9] == SignDigits(ds, slot < 0)[q - 9];
    }
    assert toks[|h| - 1] == h[|h| - 1] == e[|e| - 1];
    SkipTo(toks, 9, |h| - 1);
    assert toks[..4] == h[..4];
    assert toks[4] == h[4];
  }
}
