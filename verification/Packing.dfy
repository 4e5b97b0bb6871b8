/** Packing 5-bit tokens into bytes, and the ladder of unit widths that carries
    them in between. A list of w-bit units is read as one number in base 2^w, most
    significant unit first; repacking keeps that number. */
module Packing {
  import opened Lexicon

  function Pow2(n: nat): (p: nat)
    ensures p >= 1
  {
    if n == 0 then 1 else 2 * Pow2(n - 1)
  }

  /** The number a list of w-bit units spells. */
  function Num(units: seq<nat>, w: nat): nat {
    if units == [] then 0 else Num(units[..|units| - 1], w) * Pow2(w) + units[|units| - 1]
  }

  predicate Fits(units: seq<nat>, w: nat) {
    forall k :: 0 <= k < |units| ==> units[k] < Pow2(w)
  }

  function Quotient(v: nat, p: nat): nat
    requires p > 0
  {
    v / p
  }

  function High(v: nat, w: nat): nat {
    Quotient(v, Pow2(w))
  }

  function Low(v: nat, w: nat): nat {
    v % Pow2(w)
  }

  /** The k low w-bit digits of v, most significant first. */
  function DigitsOf(v: nat, w: nat, k: nat): (ds: seq<nat>)
    ensures |ds| == k
    decreases k
  {
    if k == 0 then [] else DigitsOf(High(v, w), w, k - 1) + [Low(v, w)]
  }

  function Pad(n: nat): nat {
    (8 - 5 * n % 8) % 8
  }

  /** The bytes of a token list: its 5-bit digits, zero bits up to a byte boundary,
      cut into bytes. */
  function Pack(tokens: seq<Token>): seq<nat> {
    DigitsOf(Num(tokens, 5) * Pow2(Pad(|tokens|)), 8, (5 * |tokens| + Pad(|tokens|)) / 8)
  }

  /** The first n tokens in a byte string. */
  function Unpack(bytes: seq<nat>, n: nat): seq<nat>
    requires 5 * n <= 8 * |bytes|
  {
    DigitsOf(Num(bytes, 8) / Pow2(8 * |bytes| - 5 * n), 5, n)
  }

  // ----- arithmetic of digits -----

  lemma {:induction false} Pow2Add(a: nat, b: nat)
    ensures Pow2(a + b) == Pow2(a) * Pow2(b)
  {
    if a > 0 {
      Pow2Add(a - 1, b);
    }
  }

  lemma Grow(a: nat, b: nat, p: nat)
    requires a < b
    ensures a * p + p <= b * p
  {
    assert (a + 1) * p <= b * p;
  }

  /** x = hi * p + lo with lo < p names quotient and remainder. */
  lemma Division(x: nat, p: nat, hi: nat, lo: nat)
    requires x == hi * p + lo && lo < p
    ensures x / p == hi && x % p == lo
  {
    var q := x / p;
    assert q * p + x % p == x;
    if q < hi {
      Grow(q, hi, p);
      assert false;
    }
    if q > hi {
      Grow(hi, q, p);
      assert false;
    }
  }

  lemma {:induction false} NumBelow(units: seq<nat>, w: nat)
    requires Fits(units, w)
    ensures Num(units, w) < Pow2(w * |units|)
  {
    if units != [] {
      var init := units[..|units| - 1];
      NumBelow(init, w);
      Pow2Add(w * |init|, w);
      assert w * |units| == w * |init| + w;
      Grow(Num(init, w), Pow2(w * |init|), Pow2(w));
    }
  }

  /** Digits give back any list of fitting units from its number. */
  lemma {:induction false} NumDigits(units: seq<nat>, w: nat)
    requires Fits(units, w)
    ensures DigitsOf(Num(units, w), w, |units|) == units
  {
    if units != [] {
      var k := |units| - 1;
      var init, last := units[..k], units[k];
      assert units == init + [last];
      Division(Num(units, w), Pow2(w), Num(init, w), last);
      NumDigits(init, w);
    }
  }

  lemma DivideBound(v: nat, p: nat, q: nat)
    requires p > 0 && v < q * p
    ensures v / p < q
  {
    var d := v / p;
    assert v == d * p + v % p;
    if d == q {
      assert false;
    }
    if d > q {
      Grow(q, d, p);
      assert false;
    }
  }

  lemma NumSnoc(units: seq<nat>, u: nat, w: nat)
    ensures Num(units + [u], w) == Num(units, w) * Pow2(w) + u
  {
    assert (units + [u])[..|units + [u]| - 1] == units;
  }

  lemma DigitsSnoc(v: nat, w: nat, k: nat)
    requires k > 0
    ensures DigitsOf(v, w, k) == DigitsOf(High(v, w), w, k - 1) + [Low(v, w)]
  {
    hide High, Low;
  }

  lemma Euclid(v: nat, p: nat)
    requires p > 0
    ensures v / p * p + v % p == v && v % p < p
  {
  }

  /** The number gives back the digits' value when it is small enough. */
  lemma {:induction false} DigitsNum(v: nat, w: nat, k: nat)
    requires v < Pow2(w * k)
    ensures Num(DigitsOf(v, w, k), w) == v && Fits(DigitsOf(v, w, k), w)
    decreases k
  {
    if k > 0 {
      assert w * k == w * (k - 1) + w;
      Pow2Add(w * (k - 1), w);
      DivideBound(v, Pow2(w), Pow2(w * (k - 1)));
      DigitsNum(High(v, w), w, k - 1);
      DigitsSnoc(v, w, k);
      Euclid(v, Pow2(w));
      NumSnoc(DigitsOf(High(v, w), w, k - 1), Low(v, w), w);
      hide Num, DigitsOf, Pow2;
    } else {
      assert w * k == 0;
    }
  }

  lemma Distribute(a: nat, p: nat, b: nat, q: nat, pq: nat)
    requires pq == p * q
    ensures (a * p + b) * q == a * pq + b * q
  {
    assert (a * p + b) * q == (a * p) * q + b * q;
    assert (a * p) * q == a * (p * q);
  }

  lemma NoDigits(v: nat, w: nat)
    ensures v * Pow2(w * 0) == v && Num([], w) == 0
  {
    assert w * 0 == 0;
  }

  lemma {:induction false} NumAppend(xs: seq<nat>, ys: seq<nat>, w: nat)
    ensures Num(xs + ys, w) == Num(xs, w) * Pow2(w * |ys|) + Num(ys, w)
    decreases |ys|
  {
    hide *;
    if ys == [] {
      assert xs + ys == xs;
      NoDigits(Num(xs, w), w);
    } else {
      var k := |ys| - 1;
      var init, last := ys[..k], ys[k];
      assert ys == init + [last] && xs + ys == (xs + init) + [last];
      NumAppend(xs, init, w);
      NumSnoc(xs + init, last, w);
      NumSnoc(init, last, w);
      Pow2Add(w * k, w);
      assert w * |ys| == w * k + w;
      Distribute(Num(xs, w), Pow2(w * k), Num(init, w), Pow2(w), Pow2(w * |ys|));
    }
  }

  lemma TokensFit(tokens: seq<Token>)
    ensures Fits(tokens, 5)
  {
    assert Pow2(5) == 32;
  }

  lemma PadFills(n: nat)
    ensures Pad(n) < 8 && 8 * ((5 * n + Pad(n)) / 8) == 5 * n + Pad(n)
  {
  }

  lemma PackNum(tokens: seq<Token>)
    ensures Num(Pack(tokens), 8) == Num(tokens, 5) * Pow2(Pad(|tokens|))
    ensures Fits(Pack(tokens), 8)
  {
    TokensFit(tokens);
    hide Pow2, Num, DigitsOf, Fits, Pad;
    var n, pad := |tokens|, Pad(|tokens|);
    var k := (5 * n + pad) / 8;
    NumBelow(tokens, 5);
    PadFills(n);
    assert 8 * k == 5 * n + pad;
    PaddedBelow(Num(tokens, 5), 5 * n, pad);
    DigitsNum(Num(tokens, 5) * Pow2(pad), 8, k);
  }

  lemma PaddedBelow(v: nat, bits: nat, pad: nat)
    requires v < Pow2(bits)
    ensures v * Pow2(pad) < Pow2(bits + pad)
  {
    Pow2Add(bits, pad);
    Grow(v, Pow2(bits), Pow2(pad));
  }

  /** Unpacking as many tokens as were packed gives them back. */
  lemma UnpackPack(tokens: seq<Token>)
    ensures 5 * |tokens| <= 8 * |Pack(tokens)|
    ensures Unpack(Pack(tokens), |tokens|) == tokens
  {
    PackBits(tokens);
    PackNum(tokens);
    hide *;
    var n, pad := |tokens|, Pad(|tokens|);
    Division(Num(tokens, 5) * Pow2(pad), Pow2(pad), Num(tokens, 5), 0);
    TokensFit(tokens);
    NumDigits(tokens, 5);
    UnpackIs(Pack(tokens), n, pad);
  }

  lemma PackBits(tokens: seq<Token>)
    ensures 8 * |Pack(tokens)| == 5 * |tokens| + Pad(|tokens|)
  {
    PadFills(|tokens|);
    hide DigitsOf, Num, Pad;
  }

  lemma UnpackIs(bytes: seq<nat>, n: nat, pad: nat)
    requires 8 * |bytes| == 5 * n + pad
    ensures Unpack(bytes, n) == DigitsOf(Num(bytes, 8) / Pow2(pad), 5, n)
  {
    hide DigitsOf, Num, Pow2;
  }

  lemma {:induction false} DigitsFit(v: nat, w: nat, k: nat)
    ensures Fits(DigitsOf(v, w, k), w)
    decreases k
  {
    if k > 0 {
      DigitsFit(High(v, w), w, k - 1);
      DigitsSnoc(v, w, k);
      Euclid(v, Pow2(w));
    }
  }

  function Low5(v: nat): Token {
    v % 32
  }

  /** The unpacked digits, as tokens. */
  function UnpackTokens(bytes: seq<nat>, n: nat): (tokens: seq<Token>)
    requires 5 * n <= 8 * |bytes|
    ensures |tokens| == n
  {
    var digits := Unpack(bytes, n);
    seq(n, i requires 0 <= i < n => Low5(digits[i]))
  }

  lemma UnpackedTokens(bytes: seq<nat>, n: nat)
    requires 5 * n <= 8 * |bytes|
    ensures UnpackTokens(bytes, n) == Unpack(bytes, n)
  {
    DigitsFit(Num(bytes, 8) / Pow2(8 * |bytes| - 5 * n), 5, n);
    assert Pow2(5) == 32;
  }
}
