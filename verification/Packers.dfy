/** The packers and unpackers as the loops they are: the bit list of
    python/binary_grid_db.py, the width ladder of python/griddb_rungs.py, and the
    C loop with its 32-bit accumulator. They all make the bytes of Packing.Pack. */
module Packers {
  import opened Lexicon
  import opened Packing

  // ----- the accumulator -----

  /** out holds whole b-bit units and the low nbits of acc what is left over of
      the number total, bits wide; the higher bits of acc do not matter. */
  ghost predicate Carried(out: seq<nat>, b: nat, acc: nat, nbits: nat, total: nat, bits: nat) {
    && b * |out| + nbits == bits
    && Fits(out, b)
    && Num(out, b) * Pow2(nbits) + acc % Pow2(nbits) == total
  }

  lemma ModShift(acc: nat, n: nat, p: nat, u: nat)
    requires n > 0 && u < p
    ensures n * p > 0 && (acc * p + u) % (n * p) == acc % n * p + u
  {
    var q, r := acc / n, acc % n;
    Euclid(acc, n);
    assert acc * p + u == q * (n * p) + (r * p + u) by {
      Distribute(q, n, r, p, n * p);
    }
    Grow(r, n, p);
    Division(acc * p + u, n * p, q, r * p + u);
  }

  lemma ModSplit(acc: nat, b: nat, m: nat)
    requires b > 0 && m > 0
    ensures b * m > 0 && acc % (b * m) == acc / m % b * m + acc % m
  {
    var q, r := acc / m, acc % m;
    Euclid(acc, m);
    Euclid(q, b);
    var hi, lo := q / b, q % b;
    assert acc == hi * (b * m) + (lo * m + r) by {
      Distribute(hi, b, lo, m, b * m);
    }
    Grow(lo, b, m);
    Division(acc, b * m, hi, lo * m + r);
  }

  lemma ModMod(x: nat, big: nat, small: nat)
    requires small > 0 && big > 0
    ensures small * big > 0 && x % (small * big) % small == x % small
  {
    ModSplit(x, big, small);
    assert big * small == small * big;
    var y := x % (small * big);
    Division(y, small, x / small % big, x % small);
  }

  function Shifted(acc: nat, a: nat, u: nat): nat {
    acc * Pow2(a) + u
  }

  /** Taking in one a-bit unit, into an accumulator that keeps at least the bits
      still needed. */
  lemma Feed(out: seq<nat>, b: nat, acc: nat, nbits: nat, total: nat, bits: nat, u: nat, a: nat, acc': nat)
    requires Carried(out, b, acc, nbits, total, bits) && u < Pow2(a)
    requires acc' % Pow2(nbits + a) == Shifted(acc, a, u) % Pow2(nbits + a)
    ensures Carried(out, b, acc', nbits + a, Shifted(total, a, u), bits + a)
  {
    hide Num, Pow2, Fits;
    Pow2Add(nbits, a);
    ModShift(acc, Pow2(nbits), Pow2(a), u);
    Distribute(Num(out, b), Pow2(nbits), acc % Pow2(nbits), Pow2(a), Pow2(nbits + a));
  }

  function Top(acc: nat, nbits: nat, b: nat): nat
    requires nbits >= b
  {
    acc / Pow2(nbits - b) % Pow2(b)
  }

  /** Giving out one b-bit unit. */
  lemma Emit(out: seq<nat>, b: nat, acc: nat, nbits: nat, total: nat, bits: nat)
    requires Carried(out, b, acc, nbits, total, bits) && nbits >= b
    ensures Carried(out + [Top(acc, nbits, b)], b, acc, nbits - b, total, bits)
  {
    var u := Top(acc, nbits, b);
    assert Fits(out + [u], b);
    assert b * |out + [u]| == b * |out| + b;
    TopSplit(acc, nbits, b);
    NumSnoc(out, u, b);
    hide Num, Pow2, Fits, Top;
    Recombine(Num(out, b), Pow2(b), u, Pow2(nbits - b), Pow2(nbits), acc % Pow2(nbits - b));
  }

  lemma Recombine(n: nat, p: nat, u: nat, m: nat, pm: nat, low: nat)
    requires pm == p * m
    ensures n * pm + (u * m + low) == (n * p + u) * m + low
  {
    Distribute(n, p, u, m, pm);
  }

  lemma TopSplit(acc: nat, nbits: nat, b: nat)
    requires nbits >= b
    ensures Pow2(nbits) == Pow2(b) * Pow2(nbits - b)
    ensures acc % Pow2(nbits) == Top(acc, nbits, b) * Pow2(nbits - b) + acc % Pow2(nbits - b)
  {
    Pow2Add(b, nbits - b);
    hide Pow2;
    ModSplit(acc, Pow2(b), Pow2(nbits - b));
  }

  /** Nothing left over: the units spell the whole number. */
  lemma CarriedExactly(out: seq<nat>, b: nat, acc: nat, total: nat, bits: nat)
    requires Carried(out, b, acc, 0, total, bits)
    ensures Num(out, b) == total && out == DigitsOf(total, b, |out|)
  {
    NumDigits(out, b);
  }

  /** A word of width bits drops nothing that is still needed. */
  lemma Trim(x: nat, width: nat, needed: nat)
    requires needed <= width
    ensures x % Pow2(width) % Pow2(needed) == x % Pow2(needed)
  {
    Pow2Add(needed, width - needed);
    hide Pow2;
    ModMod(x, Pow2(width - needed), Pow2(needed));
  }

  /** The inner loop all of them share: give out units while a whole one is there. */
  method Drain(out: seq<nat>, b: nat, acc: nat, nbits: nat, ghost total: nat, ghost bits: nat)
      returns (out': seq<nat>, nbits': nat)
    requires b > 0 && Carried(out, b, acc, nbits, total, bits)
    ensures nbits' < b && Carried(out', b, acc, nbits', total, bits)
    ensures out <= out'
  {
    hide Carried;
    out', nbits' := out, nbits;
    while nbits' >= b
      invariant Carried(out', b, acc, nbits', total, bits)
      invariant out <= out'
    {
      Emit(out', b, acc, nbits', total, bits);
      out' := out' + [Top(acc, nbits', b)];
      nbits' := nbits' - b;
    }
  }

  function BitCount(units: seq<nat>, w: nat): nat {
    w * |units|
  }

  /** What one turn of the loop does to the accumulator. */
  lemma Turn(units: seq<nat>, a: nat, k: nat, out: seq<nat>, b: nat, acc: nat, nbits: nat, acc': nat,
      width: Option<nat>)
    requires k < |units| && Fits(units, a) && nbits < b
    requires width.Some? ==> a + b - 1 <= width.value
    requires Carried(out, b, acc, nbits, Num(units[..k], a), BitCount(units[..k], a))
    requires acc' == Kept(Shifted(acc, a, units[k]), width)
    ensures Carried(out, b, acc', nbits + a, Num(units[..k + 1], a), BitCount(units[..k + 1], a))
  {
    var u := units[k];
    hide *;
    FitsAt(units, k, a);
    BitCountSnoc(units, k, a);
    KeptEnough(Shifted(acc, a, u), width, nbits + a);
    Feed(out, b, acc, nbits, Num(units[..k], a), BitCount(units[..k], a), u, a, acc');
    PrefixNum(units, k, a);
  }

  lemma PrefixNum(units: seq<nat>, k: nat, w: nat)
    requires k < |units|
    ensures Num(units[..k + 1], w) == Shifted(Num(units[..k], w), w, units[k])
  {
    assert units[..k + 1] == units[..k] + [units[k]];
    NumSnoc(units[..k], units[k], w);
  }

  lemma CountIs(units: seq<nat>, w: nat)
    ensures BitCount(units, w) == w * |units|
  {
  }

  lemma StartAt(units: seq<nat>, a: nat, b: nat)
    ensures Carried([], b, 0, 0, Num(units[..0], a), BitCount(units[..0], a))
  {
    assert units[..0] == [];
  }

  lemma FitsAt(units: seq<nat>, k: nat, w: nat)
    requires k < |units| && Fits(units, w)
    ensures units[k] < Pow2(w)
  {
  }

  lemma BitCountSnoc(units: seq<nat>, k: nat, w: nat)
    requires k < |units|
    ensures BitCount(units[..k + 1], w) == BitCount(units[..k], w) + w
  {
  }

  lemma KeptEnough(x: nat, width: Option<nat>, needed: nat)
    requires width.Some? ==> needed <= width.value
    ensures Kept(x, width) % Pow2(needed) == x % Pow2(needed)
  {
    if width.Some? {
      Trim(x, width.value, needed);
    }
  }

  /** An accumulator of a given width keeps its low bits only. */
  function Kept(x: nat, width: Option<nat>): nat {
    if width.None? then x else x % Pow2(width.value)
  }

  /** The loop of every packer and unpacker: a-bit units in, b-bit units out,
      through an unbounded accumulator or one of the given width. */
  method Regroup(units: seq<nat>, a: nat, b: nat, width: Option<nat>) returns (out: seq<nat>, acc: nat, nbits: nat)
    requires Fits(units, a) && b > 0
    requires width.Some? ==> a + b - 1 <= width.value
    ensures nbits < b && Carried(out, b, acc, nbits, Num(units, a), BitCount(units, a))
  {
    hide *;
    StartAt(units, a, b);
    out, acc, nbits := [], 0, 0;
    var k := 0;
    while k < |units|
      invariant k <= |units| && nbits < b
      invariant Carried(out, b, acc, nbits, Num(units[..k], a), BitCount(units[..k], a))
    {
      var acc' := Kept(Shifted(acc, a, units[k]), width);
      Turn(units, a, k, out, b, acc, nbits, acc', width);
      acc, nbits, k := acc', nbits + a, k + 1;
      out, nbits := Drain(out, b, acc, nbits, Num(units[..k], a), BitCount(units[..k], a));
    }
    assert units[..|units|] == units;
  }

  // ----- one rung: n tokens as five n-bit units -----

  type Width = w: nat | 0 < w witness 1

  const RUNGS: seq<Width> := [64, 32, 16, 8, 4, 2, 1]

  datatype Result<T> = Ok(value: T) | BadRung | BadCount

  lemma NothingLeft(n: nat, whole: nat, nbits: nat, k: nat)
    requires n > 0 && nbits < n && n * whole + nbits == n * k
    ensures nbits == 0
  {
    assert (whole * n + nbits) % n == k * n % n;
    Division(whole * n + nbits, n, whole, nbits);
    Division(k * n, n, k, 0);
  }

  /** The units are those of the tokens' number, and the count is exact. */
  method PackUnits(tokens: seq<Token>, n: nat) returns (r: Result<seq<nat>>)
    ensures r.BadRung? <==> n !in RUNGS
    ensures n in RUNGS ==> n > 0 && (r.BadCount? <==> |tokens| % n != 0)
    ensures r.Ok? ==> Rung(tokens, n, r.value)
  {
    if n !in RUNGS {
      return BadRung;
    }
    if |tokens| % n != 0 {
      return BadCount;
    }
    TokensFit(tokens);
    hide Carried, Num, Fits, Pow2, BitCount;
    var units, acc, nbits := Regroup(tokens, 5, n, None);
    CountIs(tokens, 5);
    ghost var k := RungExact(|tokens|, n);
    ExactFill(units, n, acc, nbits, Num(tokens, 5), k);
    return Ok(units);
  }

  /** units are tokens in n-bit units, with nothing over. */
  ghost predicate Rung(tokens: seq<Token>, n: nat, units: seq<nat>) {
    && n * |units| == 5 * |tokens|
    && Fits(units, n)
    && Num(units, n) == Num(tokens, 5)
  }

  lemma RungExact(count: nat, n: nat) returns (k: nat)
    requires n > 0 && count % n == 0
    ensures 5 * count == n * k
  {
    Euclid(count, n);
    var q := count / n;
    k := 5 * q;
    assert 5 * (q * n) == n * (5 * q);
  }

  lemma ExactFill(out: seq<nat>, b: nat, acc: nat, nbits: nat, total: nat, k: nat)
    requires nbits < b && Carried(out, b, acc, nbits, total, b * k)
    ensures |out| == k && Fits(out, b) && Num(out, b) == total
  {
    NothingLeft(b, |out|, nbits, k);
    assert acc % Pow2(0) == 0;
    assert b * |out| == b * k;
    Division(|out| * b, b, |out|, 0);
    Division(k * b, b, k, 0);
  }

  lemma UnitsExact(count: nat, n: nat) returns (k: nat)
    requires count % 5 == 0
    ensures n * count == 5 * k
  {
    k := n * (count / 5);
    var q := count / 5;
    assert count == q * 5;
    assert n * (q * 5) == 5 * (n * q);
  }

  /** Unpacking undoes any packing into the same rung. */
  method UnpackUnits(units: seq<nat>, n: nat) returns (r: Result<seq<nat>>)
    requires n in RUNGS ==> Fits(units, n)
    ensures r.BadRung? <==> n !in RUNGS
    ensures n in RUNGS ==> (r.BadCount? <==> |units| % 5 != 0)
    ensures r.Ok? ==> forall tokens: seq<Token> {:trigger Rung(tokens, n, units)} ::
              Rung(tokens, n, units) ==> r.value == tokens
    ensures r.Ok? ==> 5 * |r.value| == n * |units| && Fits(r.value, 5) && Num(r.value, 5) == Num(units, n)
  {
    if n !in RUNGS {
      return BadRung;
    }
    if |units| % 5 != 0 {
      return BadCount;
    }
    hide Carried, Num, Fits, Pow2, Rung;
    var tokens, acc, nbits := Regroup(units, n, 5, None);
    CountIs(units, n);
    ghost var k := UnitsExact(|units|, n);
    ExactFill(tokens, 5, acc, nbits, Num(units, n), k);
    forall ts: seq<Token> | Rung(ts, n, units) ensures tokens == ts {
      SameTokens(ts, tokens, n, units);
    }
    return Ok(tokens);
  }

  lemma SameTokens(ts: seq<Token>, tokens: seq<nat>, n: nat, units: seq<nat>)
    requires Rung(ts, n, units)
    requires 5 * |tokens| == n * |units| && Fits(tokens, 5) && Num(tokens, 5) == Num(units, n)
    ensures tokens == ts
  {
    TokensFit(ts);
    NumDigits(ts, 5);
    NumDigits(tokens, 5);
  }

  // ----- bytes -----

  /** The last byte: what is left over, moved up to the top of a byte. */
  function LastByte(acc: nat, nbits: nat, width: Option<nat>): nat
    requires nbits < 8
  {
    Kept(acc * Pow2(8 - nbits), width) % Pow2(8)
  }

  lemma LastByteIs(acc: nat, nbits: nat, width: Option<nat>)
    requires nbits < 8 && (width.Some? ==> 8 <= width.value)
    ensures LastByte(acc, nbits, width) == acc % Pow2(nbits) * Pow2(8 - nbits)
    ensures LastByte(acc, nbits, width) < Pow2(8)
    ensures Pow2(8) == Pow2(nbits) * Pow2(8 - nbits)
  {
    hide Kept, Pow2;
    var p := Pow2(8 - nbits);
    KeptEnough(acc * p, width, 8);
    Pow2Add(nbits, 8 - nbits);
    ModShift(acc, Pow2(nbits), p, 0);
  }

  lemma Filled(out: seq<nat>, acc: nat, nbits: nat, total: nat, bits: nat, width: Option<nat>)
    requires 0 < nbits < 8 && Carried(out, 8, acc, nbits, total, bits) && (width.Some? ==> 8 <= width.value)
    ensures var bytes := out + [LastByte(acc, nbits, width)];
            Fits(bytes, 8) && Num(bytes, 8) == total * Pow2(8 - nbits)
  {
    LastByteIs(acc, nbits, width);
    NumSnoc(out, LastByte(acc, nbits, width), 8);
    hide Num, Pow2, LastByte;
    Distribute(Num(out, 8), Pow2(nbits), acc % Pow2(nbits), Pow2(8 - nbits), Pow2(8));
  }

  lemma PadIs(n: nat, whole: nat, nbits: nat)
    requires nbits < 8 && 8 * whole + nbits == 5 * n
    ensures Pad(n) == if nbits == 0 then 0 else 8 - nbits
    ensures (5 * n + Pad(n)) / 8 == if nbits == 0 then whole else whole + 1
  {
    Eighths(5 * n, whole, nbits);
    if nbits > 0 {
      Eighths(8 - nbits, 0, 8 - nbits);
      Eighths(8 * whole + 8, whole + 1, 0);
    }
  }

  lemma Eighths(a: nat, q: nat, r: nat)
    requires a == 8 * q + r && r < 8
    ensures a / 8 == q && a % 8 == r
  {
  }

  /** A byte string of the right length with the right number is the packing. */
  lemma PackIs(tokens: seq<Token>, bytes: seq<nat>)
    requires |bytes| == (5 * |tokens| + Pad(|tokens|)) / 8
    requires Fits(bytes, 8) && Num(bytes, 8) == Num(tokens, 5) * Pow2(Pad(|tokens|))
    ensures bytes == Pack(tokens)
  {
    hide Pow2, Num;
    NumDigits(bytes, 8);
  }

  /** Closes a byte stream that carries the tokens. */
  method Close(ghost tokens: seq<Token>, out: seq<nat>, acc: nat, nbits: nat, width: Option<nat>)
      returns (bytes: seq<nat>, pad: nat)
    requires nbits < 8 && Carried(out, 8, acc, nbits, Num(tokens, 5), 5 * |tokens|)
    requires width.Some? ==> 8 <= width.value
    ensures bytes == Pack(tokens) && pad == Pad(|tokens|)
  {
    PadIs(|tokens|, |out|, nbits);
    bytes, pad := out, 0;
    if nbits > 0 {
      pad := 8 - nbits;
      bytes := bytes + [LastByte(acc, nbits, width)];
      hide Num, Pow2, LastByte;
      Filled(out, acc, nbits, Num(tokens, 5), 5 * |tokens|, width);
    } else {
      CarriedExactly(out, 8, acc, Num(tokens, 5), 5 * |tokens|);
    }
    PackIs(tokens, bytes);
  }

  /** The C packer: the accumulator is a 32-bit word and its high bits fall off. */
  method PackTokensC(tokens: seq<Token>) returns (bytes: seq<nat>, pad: nat)
    ensures bytes == Pack(tokens) && pad == Pad(|tokens|)
  {
    TokensFit(tokens);
    hide Carried, Num, Pow2, Fits, BitCount, Pack;
    var out, acc, nbits := Regroup(tokens, 5, 8, Some(32));
    CountIs(tokens, 5);
    bytes, pad := Close(tokens, out, acc, nbits, Some(32));
  }

  /** The reference packer: a list of bits, padded, cut into bytes. */
  method PackToBytes(tokens: seq<Token>) returns (bytes: seq<nat>, pad: nat)
    ensures bytes == Pack(tokens) && pad == Pad(|tokens|)
  {
    hide Num, Pow2, Fits, Pack;
    TokensFit(tokens);
    var bits := UnitBits(tokens, 5);
    pad := (8 - |bits| % 8) % 8;
    PadFills(|tokens|);
    var zeros := seq(pad, i => 0);
    ZeroBits(zeros);
    NumAppend(bits, zeros, 1);
    FitsAppend(bits, zeros, 1);
    assert 1 * |zeros| == pad;
    bytes := GroupBits(bits + zeros, 8, |bits + zeros| / 8);
    assert (bits + zeros)[..|bits + zeros|] == bits + zeros;
    PackIs(tokens, bytes);
  }

  lemma FitsAppend(xs: seq<nat>, ys: seq<nat>, w: nat)
    requires Fits(xs, w) && Fits(ys, w)
    ensures Fits(xs + ys, w)
  {
  }

  lemma {:induction false} ZeroBits(zeros: seq<nat>)
    requires forall k :: 0 <= k < |zeros| ==> zeros[k] == 0
    ensures Fits(zeros, 1) && Num(zeros, 1) == 0
  {
    if zeros != [] {
      var k := |zeros| - 1;
      ZeroBits(zeros[..k]);
      assert zeros[k] == 0 && Num(zeros[..k], 1) * Pow2(1) == 0;
    }
  }

  /** Every unit's w bits, the highest first. */
  method UnitBits(units: seq<nat>, w: nat) returns (bits: seq<nat>)
    requires Fits(units, w)
    ensures |bits| == w * |units| && Fits(bits, 1) && Num(bits, 1) == Num(units, w)
  {
    hide *;
    bits := [];
    StartAt(units, w, 1);
    var k := 0;
    while k < |units|
      invariant k <= |units|
      invariant Carried(bits, 1, 0, 0, Num(units[..k], w), BitCount(units[..k], w))
    {
      bits := BitsOf(bits, units, k, w);
      k := k + 1;
    }
    assert units[..|units|] == units;
    CountIs(units, w);
    CarriedExactly(bits, 1, 0, Num(units, w), w * |units|);
    CarriedLength(bits, 0, Num(units, w), w * |units|);
  }

  lemma CarriedLength(bits: seq<nat>, acc: nat, total: nat, count: nat)
    requires Carried(bits, 1, acc, 0, total, count)
    ensures |bits| == count && Fits(bits, 1)
  {
  }

  method BitsOf(before: seq<nat>, units: seq<nat>, k: nat, w: nat) returns (bits: seq<nat>)
    requires k < |units| && Fits(units, w)
    requires Carried(before, 1, 0, 0, Num(units[..k], w), BitCount(units[..k], w))
    ensures Carried(bits, 1, 0, 0, Num(units[..k + 1], w), BitCount(units[..k + 1], w))
  {
    hide *;
    var u := units[k];
    UnitTurn(before, units, k, w);
    bits := before;
    ghost var total, count := Num(units[..k + 1], w), BitCount(units[..k + 1], w);
    var i := w;
    while i > 0
      invariant 0 <= i <= w
      invariant Carried(bits, 1, u, i, total, count)
    {
      Emit(bits, 1, u, i, total, count);
      bits := bits + [Top(u, i, 1)];
      i := i - 1;
    }
    Whole(bits, 1, u, total, count);
  }

  lemma UnitTurn(bits: seq<nat>, units: seq<nat>, k: nat, w: nat)
    requires k < |units| && Fits(units, w)
    requires Carried(bits, 1, 0, 0, Num(units[..k], w), BitCount(units[..k], w))
    ensures Carried(bits, 1, units[k], w, Num(units[..k + 1], w), BitCount(units[..k + 1], w))
  {
    assert Kept(Shifted(0, w, units[k]), None) == units[k];
    hide Carried, Num, Fits;
    Turn(units, w, k, bits, 1, 0, 0, units[k], None);
  }

  lemma Whole(out: seq<nat>, b: nat, acc: nat, total: nat, bits: nat)
    requires Carried(out, b, acc, 0, total, bits)
    ensures Carried(out, b, 0, 0, total, bits)
  {
  }

  /** w bits to a unit, the first the highest, for the first count units. */
  method GroupBits(bits: seq<nat>, w: nat, count: nat) returns (units: seq<nat>)
    requires w * count <= |bits| && Fits(bits, 1)
    ensures |units| == count && Fits(units, w) && Num(units, w) == Num(bits[..w * count], 1)
  {
    units := [];
    assert bits[..w * 0] == [];
    var k := 0;
    while k < count
      invariant k <= count && |units| == k && w * k <= w * count
      invariant Fits(units, w) && Num(units, w) == Num(bits[..w * k], 1)
    {
      Room(w, k, count);
      var unit, j := 0, 0;
      var i := w * k;
      assert bits[i..i] == [];
      while j < w
        invariant j <= w && unit == Num(bits[i..i + j], 1)
      {
        unit := AddBit(bits, i, j, unit);
        j := j + 1;
      }
      OneUnit(units, bits, w, i);
      units := units + [unit];
      k := k + 1;
    }
  }

  lemma Room(w: nat, k: nat, count: nat)
    requires k < count
    ensures w * k + w == w * (k + 1) <= w * count
  {
    Grow(k, count, w);
  }

  method AddBit(bits: seq<nat>, i: nat, j: nat, unit: nat) returns (r: nat)
    requires i + j < |bits| && unit == Num(bits[i..i + j], 1)
    ensures r == Num(bits[i..i + (j + 1)], 1)
  {
    assert bits[i..i + (j + 1)] == bits[i..i + j] + [bits[i + j]];
    NumSnoc(bits[i..i + j], bits[i + j], 1);
    r := unit * 2 + bits[i + j];
  }

  lemma OneUnit(units: seq<nat>, bits: seq<nat>, w: nat, i: nat)
    requires i + w <= |bits| && Fits(bits, 1)
    requires Fits(units, w) && Num(units, w) == Num(bits[..i], 1)
    ensures var unit := Num(bits[i..i + w], 1);
            Fits(units + [unit], w) && Num(units + [unit], w) == Num(bits[..i + w], 1)
  {
    var slice := bits[i..i + w];
    assert Fits(slice, 1);
    assert bits[..i + w] == bits[..i] + slice;
    hide *;
    NumBelow(slice, 1);
    NumAppend(bits[..i], slice, 1);
    assert 1 * |slice| == w;
    NumSnoc(units, Num(slice, 1), w);
    FitsSnoc(units, Num(slice, 1), w);
  }

  lemma FitsSnoc(units: seq<nat>, u: nat, w: nat)
    requires Fits(units, w) && u < Pow2(w)
    ensures Fits(units + [u], w)
  {
  }

  // ----- the ladder of rungs -----

  /** The rungs set in n, largest first. */
  function Ladder(n: nat, rungs: seq<Width>): (rs: seq<Width>)
    ensures forall r :: r in rs ==> r in rungs
  {
    if rungs == [] then []
    else (if n / rungs[0] % 2 == 1 then [rungs[0]] else []) + Ladder(n, rungs[1..])
  }

  /** A token count as rung sizes: past one pass of the ladder the widest repeats. */
  function Compose(n: nat): (rs: seq<Width>)
    ensures forall r :: r in rs ==> r in RUNGS
  {
    if n <= 127 then Ladder(n, RUNGS) else Repeat(n / 64) + Ladder(n % 64, RUNGS)
  }

  function Repeat(k: nat): (rs: seq<Width>)
    ensures forall r :: r in rs ==> r == 64
  {
    seq(k, i => 64)
  }

  function Sum(ns: seq<Width>): nat {
    if ns == [] then 0 else ns[0] + Sum(ns[1..])
  }

  function Bit(n: nat, r: Width): nat {
    if n / r % 2 == 1 then r else 0
  }

  lemma LadderStep(n: nat, rungs: seq<Width>)
    requires rungs != []
    ensures Sum(Ladder(n, rungs)) == Bit(n, rungs[0]) + Sum(Ladder(n, rungs[1..]))
  {
    var rest := Ladder(n, rungs[1..]);
    if n / rungs[0] % 2 == 1 {
      assert ([rungs[0]] + rest)[1..] == rest;
    } else {
      assert [] + rest == rest;
    }
  }

  lemma LadderSum(n: nat)
    requires n <= 127
    ensures Sum(Ladder(n, RUNGS)) == n
  {
    hide *;
    RungsAre(n);
    LadderAt(n, 0);
    LadderAt(n, 1);
    LadderAt(n, 2);
    LadderAt(n, 3);
    LadderAt(n, 4);
    LadderAt(n, 5);
    LadderAt(n, 6);
    BitsSum(n);
  }

  lemma RungsAre(n: nat)
    ensures RUNGS[0..] == RUNGS && |RUNGS| == 7 && Sum(Ladder(n, RUNGS[7..])) == 0
    ensures RUNGS[0] == 64 && RUNGS[1] == 32 && RUNGS[2] == 16 && RUNGS[3] == 8
    ensures RUNGS[4] == 4 && RUNGS[5] == 2 && RUNGS[6] == 1
  {
    assert |RUNGS[7..]| == 0;
  }

  lemma LadderAt(n: nat, k: nat)
    requires k < |RUNGS|
    ensures Sum(Ladder(n, RUNGS[k..])) == Bit(n, RUNGS[k]) + Sum(Ladder(n, RUNGS[k + 1..]))
  {
    hide *;
    LadderStep(n, RUNGS[k..]);
    assert RUNGS[k..][1..] == RUNGS[k + 1..];
  }

  lemma BitIs(n: nat, r: Width, twice: Width)
    requires twice == 2 * r
    ensures Bit(n, r) == r * (n / r) - twice * (n / twice)
  {
    var q := n / r;
    Euclid(n, r);
    Euclid(q, 2);
    var h := q / 2;
    Distribute(h, 2, q % 2, r, twice);
    assert n == h * twice + (q % 2 * r + n % r);
    assert q % 2 * r + n % r < twice;
    Division(n, twice, h, q % 2 * r + n % r);
  }

  lemma BitsSum(n: nat)
    requires n <= 127
    ensures Bit(n, 64) + Bit(n, 32) + Bit(n, 16) + Bit(n, 8) + Bit(n, 4) + Bit(n, 2) + Bit(n, 1) == n
  {
    hide Bit;
    BitIs(n, 64, 128);
    BitIs(n, 32, 64);
    BitIs(n, 16, 32);
    BitIs(n, 8, 16);
    BitIs(n, 4, 8);
    BitIs(n, 2, 4);
    BitIs(n, 1, 2);
    assert n / 128 == 0;
  }

  lemma {:induction false} SumAppend(xs: seq<Width>, ys: seq<Width>)
    ensures Sum(xs + ys) == Sum(xs) + Sum(ys)
  {
    if xs == [] {
      assert xs + ys == ys;
    } else {
      assert (xs + ys)[1..] == xs[1..] + ys;
      SumAppend(xs[1..], ys);
    }
  }

  lemma {:induction false} SumRepeat(k: nat)
    ensures Sum(Repeat(k)) == 64 * k
  {
    if k > 0 {
      assert Repeat(k)[1..] == Repeat(k - 1);
      SumRepeat(k - 1);
    }
  }

  /** The rungs of a count add up to it: no slack in the format. */
  lemma ComposeSums(n: nat)
    ensures Sum(Compose(n)) == n
  {
    hide Ladder, Sum, Repeat;
    if n <= 127 {
      LadderSum(n);
    } else {
      LadderSum(n % 64);
      SumRepeat(n / 64);
      SumAppend(Repeat(n / 64), Ladder(n % 64, RUNGS));
    }
  }

  // ----- composed streams -----

  type Segment = (Width, seq<nat>)

  /** The segments are the tokens, rung after rung, and nothing else. */
  ghost predicate Spells(segments: seq<Segment>, tokens: seq<Token>) {
    if segments == [] then tokens == []
    else
      var (n, units) := segments[0];
      && n <= |tokens|
      && Rung(tokens[..n], n, units)
      && Spells(segments[1..], tokens[n..])
  }

  function Widths(segments: seq<Segment>): seq<Width> {
    seq(|segments|, i requires 0 <= i < |segments| => segments[i].0)
  }

  lemma {:induction false} SpellsSnoc(segments: seq<Segment>, tokens: seq<Token>, more: seq<Token>, units: seq<nat>)
    requires Spells(segments, tokens) && more != [] && Rung(more, |more|, units)
    ensures Spells(segments + [(|more|, units)], tokens + more)
  {
    hide Rung;
    var last: Segment := (|more|, units);
    if segments == [] {
      assert segments + [last] == [last] && |[last][1..]| == 0;
      assert tokens + more == more && more[..|more|] == more && more[|more|..] == [];
    } else {
      var n := segments[0].0;
      assert (segments + [last])[1..] == segments[1..] + [last];
      assert (tokens + more)[..n] == tokens[..n] && (tokens + more)[n..] == tokens[n..] + more;
      SpellsSnoc(segments[1..], tokens[n..], more, units);
    }
  }

  lemma SumFrom(widths: seq<Width>, k: nat)
    requires k < |widths|
    ensures Sum(widths[k..]) == widths[k] + Sum(widths[k + 1..])
  {
    assert widths[k..][1..] == widths[k + 1..];
  }

  lemma WidthsSnoc(segments: seq<Segment>, s: Segment)
    ensures Widths(segments + [s]) == Widths(segments) + [s.0]
  {
  }

  lemma PackStart(tokens: seq<Token>, widths: seq<Width>)
    requires widths == Compose(|tokens|)
    ensures Sum(widths[0..]) == |tokens| && Spells([], tokens[..0]) && Widths([]) == widths[..0]
  {
    ComposeSums(|tokens|);
    assert widths[0..] == widths && tokens[..0] == [];
  }

  /** Any stream packs, as the rungs of its length. */
  method PackComposed(tokens: seq<Token>) returns (segments: seq<Segment>)
    ensures Spells(segments, tokens) && Widths(segments) == Compose(|tokens|)
  {
    hide *;
    segments := [];
    var idx: nat := 0;
    var widths := Compose(|tokens|);
    PackStart(tokens, widths);
    var k := 0;
    while k < |widths|
      invariant k <= |widths| && idx <= |tokens| && idx + Sum(widths[k..]) == |tokens|
      invariant Spells(segments, tokens[..idx]) && Widths(segments) == widths[..k]
    {
      var n := widths[k];
      SumFrom(widths, k);
      var group := tokens[idx..idx + n];
      assert n in RUNGS;
      Division(n, n, 1, 0);
      var r := PackUnits(group, n);
      SpellsSnoc(segments, tokens[..idx], group, r.value);
      WidthsSnoc(segments, (n, r.value));
      assert tokens[..idx] + group == tokens[..idx + n];
      assert widths[..k] + [n] == widths[..k + 1];
      segments := segments + [(n, r.value)];
      idx, k := idx + n, k + 1;
    }
    assert widths[k..] == [] && widths[..k] == widths;
    assert Sum(widths[k..]) == 0 by {
      SumNone();
    }
    assert tokens[..idx] == tokens;
  }

  lemma SumNone()
    ensures Sum([]) == 0
  {
  }

  lemma SpellsNext(segments: seq<Segment>, k: nat, tokens: seq<Token>, d: nat)
    requires k < |segments| && d <= |tokens| && Spells(segments[k..], tokens[d..])
    ensures var (n, units) := segments[k];
            && d + n <= |tokens| && Rung(tokens[d..d + n], n, units)
            && Spells(segments[k + 1..], tokens[d + n..])
            && tokens[..d] + tokens[d..d + n] == tokens[..d + n]
  {
    var n := segments[k].0;
    assert segments[k..][1..] == segments[k + 1..];
    assert tokens[d..][..n] == tokens[d..d + n] && tokens[d..][n..] == tokens[d + n..];
  }

  lemma SpellsEnd(segments: seq<Segment>, tokens: seq<Token>, d: nat)
    requires d <= |tokens| && Spells(segments[|segments|..], tokens[d..])
    ensures tokens[..d] == tokens
  {
    assert segments[|segments|..] == [];
    assert |tokens[d..]| == 0;
  }

  method UnpackComposed(segments: seq<Segment>, ghost tokens: seq<Token>) returns (out: seq<nat>)
    requires Spells(segments, tokens) && forall s: Segment :: s in segments ==> s.0 in RUNGS
    ensures out == tokens
  {
    hide *;
    out := [];
    var k := 0;
    assert segments[0..] == segments && tokens[0..] == tokens;
    while k < |segments|
      invariant k <= |segments| && |out| <= |tokens|
      invariant out == tokens[..|out|] && Spells(segments[k..], tokens[|out|..])
    {
      var (n, units) := segments[k];
      assert segments[k] in segments;
      SpellsNext(segments, k, tokens, |out|);
      RungUnits(tokens[|out|..|out| + n], n, units);
      var r := UnpackUnits(units, n);
      out := out + r.value;
      k := k + 1;
    }
    SpellsEnd(segments, tokens, |out|);
  }

  lemma RungUnits(tokens: seq<Token>, n: nat, units: seq<nat>)
    requires Rung(tokens, n, units) && n > 0 && |tokens| == n
    ensures |units| == 5 && Fits(units, n)
  {
    Division(n * |units|, n, |units|, 0);
    Division(5 * n, n, 5, 0);
  }

  /** A composed stream of tokens serialises to the bytes of the reference packer. */
  method ComposedToBytes(segments: seq<Segment>, ghost tokens: seq<Token>) returns (bytes: seq<nat>, pad: nat)
    requires Spells(segments, tokens) && forall s: Segment :: s in segments ==> s.0 in RUNGS
    ensures bytes == Pack(tokens) && pad == Pad(|tokens|)
  {
    hide *;
    var out, acc, nbits := [], 0, 0;
    ghost var d := 0;
    StartAt(tokens, 5, 8);
    CountIs(tokens[..0], 5);
    assert segments[0..] == segments && tokens[0..] == tokens;
    var k := 0;
    while k < |segments|
      invariant k <= |segments| && 0 <= d <= |tokens| && nbits < 8
      invariant Spells(segments[k..], tokens[d..])
      invariant Carried(out, 8, acc, nbits, Num(tokens[..d], 5), BitCount(tokens[..d], 5))
    {
      var (n, units) := segments[k];
      assert segments[k] in segments;
      SpellsNext(segments, k, tokens, d);
      out, acc, nbits := AddSegment(out, acc, nbits, n, units, tokens[..d], tokens[d..d + n]);
      d := d + n;
      k := k + 1;
    }
    SpellsEnd(segments, tokens, d);
    CountIs(tokens, 5);
    bytes, pad := Close(tokens, out, acc, nbits, None);
  }

  method AddSegment(before: seq<nat>, acc0: nat, nbits0: nat, n: nat, units: seq<nat>,
                    ghost done: seq<Token>, ghost group: seq<Token>)
      returns (out: seq<nat>, acc: nat, nbits: nat)
    requires n > 0 && |group| == n && Rung(group, n, units) && nbits0 < 8
    requires Carried(before, 8, acc0, nbits0, Num(done, 5), BitCount(done, 5))
    ensures nbits < 8 && Carried(out, 8, acc, nbits, Num(done + group, 5), BitCount(done + group, 5))
  {
    hide *;
    out, acc, nbits := before, acc0, nbits0;
    RungUnits(group, n, units);
    SegmentStart(done, units, n);
    var j := 0;
    while j < |units|
      invariant j <= |units| && nbits < 8
      invariant Carried(out, 8, acc, nbits, SoFar(done, units[..j], n), BitCount(done, 5) + BitCount(units[..j], n))
    {
      FitsAt(units, j, n);
      ghost var t, c := SoFar(done, units[..j], n), BitCount(done, 5) + BitCount(units[..j], n);
      Feed(out, 8, acc, nbits, t, c, units[j], n, Shifted(acc, n, units[j]));
      acc, nbits := Shifted(acc, n, units[j]), nbits + n;
      SoFarSnoc(done, units, j, n);
      BitCountSnoc(units, j, n);
      out, nbits := Drain(out, 8, acc, nbits, Shifted(t, n, units[j]), c + n);
      j := j + 1;
    }
    assert units[..|units|] == units;
    SegmentEnd(done, group, n, units);
  }

  /** The number spelled by the tokens done and then some n-bit units. */
  function SoFar(done: seq<Token>, units: seq<nat>, n: nat): nat {
    Num(done, 5) * Pow2(n * |units|) + Num(units, n)
  }

  lemma SegmentStart(done: seq<Token>, units: seq<nat>, n: nat)
    ensures SoFar(done, units[..0], n) == Num(done, 5)
    ensures BitCount(done, 5) + BitCount(units[..0], n) == BitCount(done, 5)
  {
    assert units[..0] == [];
    NoDigits(Num(done, 5), n);
  }

  lemma SoFarSnoc(done: seq<Token>, units: seq<nat>, j: nat, n: nat)
    requires j < |units|
    ensures SoFar(done, units[..j + 1], n) == Shifted(SoFar(done, units[..j], n), n, units[j])
  {
    PrefixNum(units, j, n);
    BitCountSnoc(units, j, n);
    Widen(Num(done, 5), BitCount(units[..j], n), n, BitCount(units[..j + 1], n), Num(units[..j], n));
    hide Num, Pow2;
  }

  lemma Widen(d: nat, e: nat, n: nat, en: nat, u: nat)
    requires en == e + n
    ensures (d * Pow2(e) + u) * Pow2(n) == d * Pow2(en) + u * Pow2(n)
  {
    hide *;
    Pow2Add(e, n);
    Distribute(d, Pow2(e), u, Pow2(n), Pow2(en));
  }

  lemma SegmentEnd(done: seq<Token>, group: seq<Token>, n: nat, units: seq<nat>)
    requires Rung(group, n, units)
    ensures SoFar(done, units, n) == Num(done + group, 5)
    ensures BitCount(done, 5) + BitCount(units, n) == BitCount(done + group, 5)
  {
    hide Num, Pow2, Fits;
    NumAppend(done, group, 5);
  }

  /** The rungs, serialised, make the bytes of the reference packer. */
  method PackThroughRungs(tokens: seq<Token>) returns (bytes: seq<nat>, pad: nat)
    ensures bytes == Pack(tokens) && pad == Pad(|tokens|)
  {
    var segments := PackComposed(tokens);
    forall s: Segment | s in segments ensures s.0 in RUNGS {
      var i :| 0 <= i < |segments| && segments[i] == s;
      assert Widths(segments)[i] == s.0;
      assert Compose(|tokens|)[i] in Compose(|tokens|);
    }
    bytes, pad := ComposedToBytes(segments, tokens);
  }

  // ----- bytes back to tokens -----

  lemma PrefixOf(data: seq<nat>, k: nat, w: nat)
    requires k <= |data| && Fits(data, w)
    ensures Num(data[..k], w) == Num(data, w) / Pow2(w * (|data| - k))
  {
    var hi, lo := data[..k], data[k..];
    assert data == hi + lo;
    NumAppend(hi, lo, w);
    NumBelow(lo, w);
    Division(Num(data, w), Pow2(w * |lo|), Num(hi, w), Num(lo, w));
  }

  /** How many tokens unpack_from_bytes takes: all whole ones outside the padding,
      or the number asked for. */
  function Takes(bytes: nat, pad: nat, limit: Option<nat>): nat {
    var whole := if pad <= 8 * bytes then (8 * bytes - pad) / 5 else 0;
    if limit.Some? && limit.value < whole then limit.value else whole
  }

  method UnpackFromBytes(data: seq<nat>, pad: nat, limit: Option<nat>) returns (tokens: seq<nat>)
    requires Fits(data, 8)
    ensures tokens == Unpack(data, Takes(|data|, pad, limit))
  {
    var count := Takes(|data|, pad, limit);
    var bits := UnitBits(data, 8);
    var kept := if pad <= |bits| then bits[..|bits| - pad] else [];
    assert 5 * count <= |kept|;
    assert kept[..5 * count] == bits[..5 * count];
    assert Fits(kept, 1);
    tokens := GroupBits(kept, 5, count);
    PrefixOf(bits, 5 * count, 1);
    assert 1 * (|bits| - 5 * count) == 8 * |data| - 5 * count;
    hide Num, Pow2;
    NumDigits(tokens, 5);
  }

  lemma DivDiv(x: nat, p: nat, q: nat)
    requires p > 0 && q > 0
    ensures p * q > 0 && x / p / q == x / (p * q)
  {
    Euclid(x, p);
    Euclid(x / p, q);
    var hi, mid, lo := x / p / q, x / p % q, x % p;
    Distribute(hi, q, mid, p, q * p);
    assert q * p == p * q;
    Grow(mid, q, p);
    Division(x, p * q, hi, mid * p + lo);
  }

  /** Tokens drained from the first k bytes are the first tokens of them all. */
  lemma DrainedPrefix(data: seq<nat>, k: nat, tokens: seq<nat>, acc: nat, nbits: nat)
    requires k <= |data| && Fits(data, 8) && 5 * |tokens| <= 8 * |data|
    requires Carried(tokens, 5, acc, nbits, Num(data[..k], 8), 8 * k)
    ensures tokens == Unpack(data, |tokens|)
  {
    var rest := 8 * (|data| - k);
    assert acc % Pow2(nbits) < Pow2(nbits);
    Division(Num(data[..k], 8), Pow2(nbits), Num(tokens, 5), acc % Pow2(nbits));
    PrefixOf(data, k, 8);
    Pow2Add(rest, nbits);
    assert rest + nbits == 8 * |data| - 5 * |tokens|;
    hide Pow2, Num, Fits, Carried;
    DivDiv(Num(data, 8), Pow2(rest), Pow2(nbits));
    CarriedFits(tokens, acc, nbits, Num(data[..k], 8), 8 * k);
    NumDigits(tokens, 5);
  }

  lemma CarriedFits(tokens: seq<nat>, acc: nat, nbits: nat, total: nat, bits: nat)
    requires Carried(tokens, 5, acc, nbits, total, bits)
    ensures Fits(tokens, 5) && 5 * |tokens| + nbits == bits
  {
  }

  lemma TopIsToken(acc: nat, nbits: nat)
    requires nbits >= 5
    ensures Top(acc, nbits, 5) < 32
  {
    assert Pow2(5) == 32;
  }

  method DrainUpTo(before: seq<Token>, n: nat, acc: nat, nbits0: nat, ghost total: nat, ghost bits: nat)
      returns (tokens: seq<Token>, nbits: nat)
    requires |before| <= n && Carried(before, 5, acc, nbits0, total, bits)
    ensures |tokens| <= n && 5 * |tokens| + nbits == 5 * |before| + nbits0
    ensures nbits < 5 || |tokens| == n
    ensures Carried(tokens, 5, acc, nbits, total, bits)
  {
    hide *;
    tokens, nbits := before, nbits0;
    while nbits >= 5 && |tokens| < n
      invariant |tokens| <= n
      invariant 5 * |tokens| + nbits == 5 * |before| + nbits0
      invariant Carried(tokens, 5, acc, nbits, total, bits)
      decreases nbits
    {
      Emit(tokens, 5, acc, nbits, total, bits);
      TopIsToken(acc, nbits);
      tokens := tokens + [Top(acc, nbits, 5)];
      nbits := nbits - 5;
    }
  }

  /** The first n tokens, streamed out of the bytes. */
  method TokensOf(data: seq<nat>, n: nat) returns (tokens: seq<Token>)
    requires Fits(data, 8) && 5 * n <= 8 * |data|
    ensures tokens == Unpack(data, n)
  {
    hide *;
    tokens := [];
    var acc, nbits, k := 0, 0, 0;
    StartAt(data, 8, 5);
    while |tokens| < n
      invariant k <= |data| && |tokens| <= n && (nbits < 5 || |tokens| == n)
      invariant 5 * |tokens| + nbits == 8 * k
      invariant Carried(tokens, 5, acc, nbits, Num(data[..k], 8), BitCount(data[..k], 8))
      decreases |data| - k
    {
      acc := NextByte(data, k, tokens, acc, nbits);
      nbits, k := nbits + 8, k + 1;
      tokens, nbits := DrainUpTo(tokens, n, acc, nbits, Num(data[..k], 8), BitCount(data[..k], 8));
    }
    CountIs(data[..k], 8);
    DrainedPrefix(data, k, tokens, acc, nbits);
  }

  method NextByte(data: seq<nat>, k: nat, ghost tokens: seq<nat>, acc: nat, ghost nbits: nat) returns (acc': nat)
    requires k < |data| && Fits(data, 8) && nbits < 5
    requires Carried(tokens, 5, acc, nbits, Num(data[..k], 8), BitCount(data[..k], 8))
    ensures Carried(tokens, 5, acc', nbits + 8, Num(data[..k + 1], 8), BitCount(data[..k + 1], 8))
  {
    hide *;
    acc' := Kept(Shifted(acc, 8, data[k]), None);
    Turn(data, 8, k, tokens, 5, acc, nbits, acc', None);
  }

  /** Reading composed bytes needs the token count only: the tokens stream out of
      the bytes and are packed again. */
  method BytesToComposed(data: seq<nat>, n: nat) returns (segments: Option<seq<Segment>>, ghost tokens: seq<Token>)
    requires Fits(data, 8)
    ensures segments.None? <==> 8 * |data| < 5 * n
    ensures segments.Some? ==> tokens == Unpack(data, n) && Spells(segments.value, tokens)
  {
    if 8 * |data| < 5 * n {
      return None, [];
    }
    var out := TokensOf(data, n);
    var packed := PackComposed(out);
    return Some(packed), out;
  }
}
