/** The token readers that the walker and the backend share, as the loops they
    are, each tied to its function in Lexicon. */
module Readers {
  import opened Lexicon

  method ScanInt(toks: seq<Token>, pos: nat, end: nat) returns (v: int, p: nat)
    requires end <= |toks|
    ensures (v, p) == ReadInt(toks, pos, end)
  {
    var digits: seq<Digit>, neg := [], false;
    p := pos;
    while p < end
      invariant p >= pos
      invariant ReadInt(toks, pos, end) == ReadInt(toks, p, end, FoldDigits(digits, 0), neg)
    {
      if IsDigit(toks[p]) || IsNeg(toks[p]) {
        FoldAppend(digits, DigitOf(toks[p]), 0);
        digits := digits + [DigitOf(toks[p])];
        neg := neg || IsNeg(toks[p]);
        p := p + 1;
      } else {
        if toks[p] == END {
          p := p + 1;
        }
        break;
      }
    }
    v := 0;
    var k := 0;
    while k < |digits|
      invariant 0 <= k <= |digits|
      invariant FoldDigits(digits[k..], v) == FoldDigits(digits, 0)
    {
      assert digits[k..][1..] == digits[k + 1..];
      v := v * 10 + digits[k];
      k := k + 1;
    }
    v := Signed(v, neg);
  }

  method ScanInts(toks: seq<Token>) returns (vals: seq<int>)
    ensures vals == ParseInts(toks)
  {
    var digits: seq<Digit>, neg := [], false;
    vals := [];
    var k := 0;
    while k < |toks|
      invariant 0 <= k <= |toks|
      invariant ParseInts(toks) == vals + ParseInts(toks[k..], digits, neg)
    {
      var t := toks[k];
      assert toks[k..][1..] == toks[k + 1..];
      if IsDigit(t) || IsNeg(t) {
        digits, neg := digits + [DigitOf(t)], neg || IsNeg(t);
      } else if (t == END || t == RECORD) && digits != [] {
        ghost var more := ParseInts(toks[k + 1..]);
        var v := Signed(FoldDigits(digits, 0), neg);
        assert vals + ([v] + more) == (vals + [v]) + more;
        vals, digits, neg := vals + [v], [], false;
      }
      k := k + 1;
    }
  }

  ghost function After(regions: seq<(nat, nat)>, rest: Option<(seq<(nat, nat)>, nat)>): Option<(seq<(nat, nat)>, nat)> {
    if rest.None? then None else Some((regions + rest.value.0, rest.value.1))
  }

  lemma AfterArm(toks: seq<Token>, p: nat, end: nat, limit: nat, max: nat, regions: seq<(nat, nat)>)
    requires p < end <= limit <= |toks| && toks[p] == LPAREN && 0 < max
    ensures var m := Match(toks, p, limit);
            After(regions, Arms(toks, p, end, limit, max)) ==
            if m.None? then None else After(regions + [(p + 1, m.value)], Arms(toks, m.value + 1, end, limit, max - 1))
  {
    var m := Match(toks, p, limit);
    if m.Some? {
      var rest := Arms(toks, m.value + 1, end, limit, max - 1);
      if rest.Some? {
        assert regions + ([(p + 1, m.value)] + rest.value.0) == (regions + [(p + 1, m.value)]) + rest.value.0;
      }
    }
  }

  lemma AfterLast(toks: seq<Token>, p: nat, end: nat, limit: nat, max: nat, regions: seq<(nat, nat)>)
    requires end <= limit <= |toks| && (max == 0 || p >= end || toks[p] != LPAREN)
    ensures After(regions, Arms(toks, p, end, limit, max)) == Some((regions, p))
  {
    assert regions + [] == regions;
  }

  lemma AfterNothing(r: Option<(seq<(nat, nat)>, nat)>)
    ensures After([], r) == r
  {
    if r.Some? {
      assert [] + r.value.0 == r.value.0;
    }
  }

  method CollectArms(toks: seq<Token>, pos: nat, end: nat, limit: nat) returns (r: Option<(seq<(nat, nat)>, nat)>)
    requires end <= limit <= |toks|
    ensures r == Arms(toks, pos, end, limit, 3)
  {
    hide Arms, Match, After;
    var regions: seq<(nat, nat)>, p: nat := [], pos;
    AfterNothing(Arms(toks, pos, end, limit, 3));
    while |regions| < 3 && p < end && toks[p] == LPAREN
      invariant |regions| <= 3
      invariant Arms(toks, pos, end, limit, 3) == After(regions, Arms(toks, p, end, limit, 3 - |regions|))
      decreases 3 - |regions|
    {
      AfterArm(toks, p, end, limit, 3 - |regions|, regions);
      var close := FindClose(toks, p, limit);
      if close.None? {
        return None;
      }
      regions := regions + [(p + 1, close.value)];
      p := close.value + 1;
    }
    AfterLast(toks, p, end, limit, 3 - |regions|, regions);
    r := Some((regions, p));
  }

  method FindClose(toks: seq<Token>, pos: nat, end: nat) returns (r: Option<nat>)
    requires end <= |toks|
    ensures r == Match(toks, pos, end)
  {
    var depth := 0;
    var i := pos;
    while i < end
      invariant i >= pos
      invariant Match(toks, pos, end) == Match(toks, i, end, depth)
    {
      if toks[i] == LPAREN {
        depth := depth + 1;
      } else if toks[i] == RPAREN {
        depth := depth - 1;
        if depth == 0 {
          return Some(i);
        }
      }
      i := i + 1;
    }
    r := None;
  }
}
