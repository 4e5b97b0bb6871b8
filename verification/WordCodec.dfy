/** Text as tokens: the encoder switches between three letter contexts and drops
    to numbers for digits; the parser follows, and the pieces join up to the text
    again (python/binary_grid_db.py, python/griddb_alloc.py). */
module WordCodec {
  import opened Lexicon
  import opened TokenParser

  // ----- the encoder -----

  predicate IsDigitChar(ch: char) {
    '0' <= ch <= '9'
  }

  function WordToken(ch: char): Option<Token> {
    if 'A' <= ch <= 'Z' then Some(ch as int - 65)
    else if ch == ' ' then Some(26)
    else if ch == '.' then Some(27)
    else None
  }

  function SpecialToken(ch: char): Option<Token> {
    if 'a' <= ch <= 'z' then Some(ch as int - 97)
    else if ch == '@' then Some(26)
    else if ch == '-' then Some(27)
    else None
  }

  function IndexIn(s: string, ch: char, k: nat): (r: Option<nat>)
    requires k <= |s|
    ensures r.Some? ==> k <= r.value < |s| && s[r.value] == ch
    ensures r.None? <==> ch !in s[k..]
    decreases |s| - k
  {
    if k == |s| then None
    else if s[k] == ch then Some(k)
    else
      assert s[k..] == [s[k]] + s[k + 1..];
      IndexIn(s, ch, k + 1)
  }

  function Special2Token(ch: char): Option<Token> {
    var i := IndexIn(PUNCTUATION, ch, 0);
    if i.Some? && i.value < 28 then Some(i.value) else None
  }

  predicate Encodable(ch: char) {
    IsDigitChar(ch) || WordToken(ch).Some? || SpecialToken(ch).Some? || Special2Token(ch).Some?
  }

  /** Contexts above WORD: 0 is WORD itself, 1 and 2 lie deeper. */
  type Depth = d: int | 0 <= d <= 2

  function Times(t: Token, n: nat): (ts: seq<Token>)
    ensures |ts| == n
  {
    if n == 0 then [] else [t] + Times(t, n - 1)
  }

  /** One character: the moves to its context, then its token. */
  function EncodeChar(ch: char, depth: Depth): (seq<Token>, Depth)
    requires Encodable(ch)
  {
    if IsDigitChar(ch) then (Times(END, depth) + [END] + [(ch as int - 48) as Token] + [START], 0)
    else if WordToken(ch).Some? then (Times(END, depth) + [WordToken(ch).value], 0)
    else if SpecialToken(ch).Some? then
      ((if depth > 1 then [END] else if depth < 1 then [START] else []) + [SpecialToken(ch).value], 1)
    else (Times(START, 2 - depth) + [Special2Token(ch).value], 2)
  }

  /** The rest of a word from a given depth; None at the first character that has
      no token. */
  function EncodeRest(text: string, depth: Depth): Option<seq<Token>>
    decreases |text|
  {
    if text == [] then Some(Times(END, depth) + [END])
    else if !Encodable(text[0]) then None
    else
      var (ts, d) := EncodeChar(text[0], depth);
      var rest := EncodeRest(text[1..], d);
      if rest.None? then None else Some(ts + rest.value)
  }

  function EncodeWord(text: string): Option<seq<Token>> {
    var rest := EncodeRest(text, 0);
    if rest.None? then None else Some([START] + rest.value)
  }

  // ----- text out of parsed tokens -----

  function DigitChar(d: Digit): char {
    (d as int + 48) as char
  }

  function DigitChars(ds: seq<Digit>): string {
    seq(|ds|, i requires 0 <= i < |ds| => DigitChar(ds[i]))
  }

  function Decimal(v: int): string {
    (if v < 0 then "-" else "") + DigitChars(Digits(Abs(v)))
  }

  function Piece(x: Parsed): string {
    match x
    case Text(t) => t
    case Number(v) => Decimal(v)
    case _ => ""
  }

  /** Words and numbers, end to end. */
  function Reconstruct(xs: seq<Parsed>): string {
    if xs == [] then "" else Piece(xs[0]) + Reconstruct(xs[1..])
  }

  /** Adjacent words become one; empty ones go. */
  function Reassemble(xs: seq<Parsed>, pending: string): seq<Parsed>
    decreases |xs|
  {
    if xs == [] then Flush(pending)
    else if xs[0].Text? then Reassemble(xs[1..], pending + xs[0].text)
    else Flush(pending) + [xs[0]] + Reassemble(xs[1..], "")
  }

  function Flush(pending: string): seq<Parsed> {
    if pending == "" then [] else [Text(pending)]
  }

  lemma {:induction false} ReconstructAppend(a: seq<Parsed>, b: seq<Parsed>)
    ensures Reconstruct(a + b) == Reconstruct(a) + Reconstruct(b)
  {
    hide Piece;
    if a == [] {
      assert a + b == b;
    } else {
      assert (a + b)[1..] == a[1..] + b;
      ReconstructAppend(a[1..], b);
    }
  }

  lemma ReconstructOne(x: Parsed)
    ensures Reconstruct([x]) == Piece(x)
  {
    hide Piece;
    assert [x][1..] == [];
    assert Reconstruct([]) == "";
  }

  lemma FlushText(pending: string)
    ensures Reconstruct(Flush(pending)) == pending
  {
    if pending != "" {
      ReconstructOne(Text(pending));
    }
  }

  /** Joining words up changes no text. */
  lemma {:induction false} ReassembleKeepsText(xs: seq<Parsed>, pending: string)
    ensures Reconstruct(Reassemble(xs, pending)) == pending + Reconstruct(xs)
    decreases |xs|
  {
    hide *;
    FlushText(pending);
    if xs == [] {
      ReassembleNone(pending);
    } else {
      ReassembleStep(xs, pending);
      var rest := xs[1..];
      assert xs == [xs[0]] + rest;
      ReconstructAppend([xs[0]], rest);
      ReconstructOne(xs[0]);
      if xs[0].Text? {
        ReassembleKeepsText(rest, pending + xs[0].text);
        PieceText(xs[0]);
      } else {
        ReassembleKeepsText(rest, "");
        ReconstructAppend(Flush(pending) + [xs[0]], Reassemble(rest, ""));
        ReconstructAppend(Flush(pending), [xs[0]]);
        assert pending + Piece(xs[0]) + ("" + Reconstruct(rest)) == pending + (Piece(xs[0]) + Reconstruct(rest));
      }
    }
  }

  lemma PieceText(x: Parsed)
    requires x.Text?
    ensures Piece(x) == x.text
  {
  }

  lemma ReassembleNone(pending: string)
    ensures Reassemble([], pending) == Flush(pending) && pending + Reconstruct([]) == pending
  {
    assert Reconstruct([]) == "";
  }

  lemma ReassembleStep(xs: seq<Parsed>, pending: string)
    requires xs != []
    ensures Reassemble(xs, pending) ==
      if xs[0].Text? then Reassemble(xs[1..], pending + xs[0].text)
      else Flush(pending) + [xs[0]] + Reassemble(xs[1..], "")
  {
    hide Flush;
  }

  // ----- the parser follows -----

  function CtxAt(depth: Depth): Context {
    if depth == 0 then Word else if depth == 1 then Special else Special2
  }

  predicate InWords(ctx: Context) {
    ctx == Word || ctx == Special || ctx == Special2
  }

  /** The text so far: what is out, and what is pending. */
  function Shown(p: Parsing): string {
    Reconstruct(Finalized(p))
  }

  lemma ShownIs(p: Parsing)
    ensures Shown(p) == Reconstruct(p.out) + Reconstruct(Closing(p))
  {
    hide Reconstruct, Closing;
    ReconstructAppend(p.out, Closing(p));
  }

  /** A move between contexts shows nothing. */
  lemma Moves(p: Parsing, ctx: Context)
    requires InWords(ctx) || ctx == Num
    ensures Shown(Into(p, ctx, [])) == Shown(p)
  {
    var q := Into(p, ctx, []);
    ShownIs(q);
    assert Chars(ctx, []) == "";
    assert q.out == Finalized(p);
    hide Finalized;
    if ctx == Num {
      assert Closing(q) == [];
    } else {
      assert Closing(q) == [Text("")];
      ReconstructOne(Text(""));
    }
    assert Reconstruct(Closing(q)) == "";
    assert Shown(p) + "" == Shown(p);
  }

  lemma CharsSnoc(ctx: Context, pending: seq<int>, t: int)
    ensures Chars(ctx, pending + [t]) == Chars(ctx, pending) + [CharIn(ctx, t)]
  {
    hide CharIn;
  }

  lemma Letter(p: Parsing, t: Token)
    requires InWords(p.ctx) && t < 28
    ensures var q := p.(pending := p.pending + [t]);
            Feed(p, t) == Some(q) && Shown(q) == Shown(p) + [CharIn(p.ctx, t)]
  {
    var q := p.(pending := p.pending + [t]);
    hide Reconstruct, Chars, CharIn, Shown;
    ShownIs(p);
    ShownIs(q);
    CharsSnoc(p.ctx, p.pending, t);
    ReconstructOne(Text(Chars(p.ctx, p.pending)));
    ReconstructOne(Text(Chars(p.ctx, q.pending)));
    assert Reconstruct(p.out) + (Chars(p.ctx, p.pending) + [CharIn(p.ctx, t)])
        == Reconstruct(p.out) + Chars(p.ctx, p.pending) + [CharIn(p.ctx, t)];
  }

  lemma DigitText(d: Digit)
    ensures Decimal(d) == [DigitChar(d)]
  {
    assert Digits(d) == [d];
  }

  lemma DigitShows(p: Parsing, d: Digit)
    requires p.ctx == Num && p.pending == []
    ensures var q := p.(pending := [d as int]);
            Feed(p, d) == Some(q) && Shown(q) == Shown(p) + [DigitChar(d)]
  {
    var q := p.(pending := [d as int]);
    var none: seq<int> := [];
    assert none + [DigitValue(d)] == [d as int];
    ShownIs(p);
    ShownIs(q);
    assert [d as int][..0] == [];
    assert SignedValue([d as int]) == d;
    ReconstructOne(Number(d));
    DigitText(d);
    hide Reconstruct, Decimal;
    assert Reconstruct([]) == "" by {
      NoText();
    }
    assert Reconstruct(p.out) + "" == Reconstruct(p.out);
  }

  lemma NoText()
    ensures Reconstruct([]) == ""
  {
  }

  lemma {:induction false} PopsTo(p: Parsing, depth: Depth, rest: seq<Token>) returns (q: Parsing)
    requires p.ctx == CtxAt(depth)
    ensures FeedAll(p, Times(END, depth) + rest) == FeedAll(q, rest)
    ensures q.ctx == Word && Shown(q) == Shown(p)
    decreases depth
  {
    hide FeedAll, Shown, Into;
    if depth == 0 {
      q := p;
      assert Times(END, 0) + rest == rest;
    } else {
      var more := Times(END, depth - 1) + rest;
      assert Times(END, depth) + rest == [END] + more;
      FeedOne(p, END, more);
      Moves(p, Shallower(p.ctx));
      var p1 := Into(p, Shallower(p.ctx), []);
      IntoCtx(p, Shallower(p.ctx));
      q := PopsTo(p1, depth - 1, rest);
    }
  }

  lemma IntoCtx(p: Parsing, ctx: Context)
    ensures Into(p, ctx, []).ctx == ctx && Into(p, ctx, []).pending == []
  {
  }

  lemma GoesDown(p: Parsing, rest: seq<Token>) returns (q: Parsing)
    requires p.ctx == Num || p.ctx == Word || p.ctx == Special
    ensures FeedAll(p, [START] + rest) == FeedAll(q, rest)
    ensures q.ctx == Deeper(p.ctx) && Shown(q) == Shown(p)
  {
    FeedOne(p, START, rest);
    q := Into(p, Deeper(p.ctx), []);
    Moves(p, Deeper(p.ctx));
  }

  lemma {:induction false} SinksTo(p: Parsing, depth: Depth, rest: seq<Token>) returns (q: Parsing)
    requires p.ctx == CtxAt(depth)
    ensures FeedAll(p, Times(START, 2 - depth) + rest) == FeedAll(q, rest)
    ensures q.ctx == Special2 && Shown(q) == Shown(p)
    decreases 2 - depth
  {
    hide FeedAll, Shown;
    if depth == 2 {
      q := p;
      assert Times(START, 0) + rest == rest;
    } else {
      var more := Times(START, 1 - depth) + rest;
      assert Times(START, 2 - depth) + rest == [START] + more;
      var p1 := GoesDown(p, more);
      q := SinksTo(p1, depth + 1, rest);
    }
  }

  lemma GoesUp(p: Parsing, rest: seq<Token>) returns (q: Parsing)
    requires InWords(p.ctx)
    ensures FeedAll(p, [END] + rest) == FeedAll(q, rest)
    ensures q.ctx == Shallower(p.ctx) && q.pending == [] && Shown(q) == Shown(p)
  {
    FeedOne(p, END, rest);
    q := Into(p, Shallower(p.ctx), []);
    Moves(p, Shallower(p.ctx));
  }

  lemma Spells(p: Parsing, t: Token, ch: char, rest: seq<Token>) returns (q: Parsing)
    requires InWords(p.ctx) && t < 28 && CharIn(p.ctx, t) == ch
    ensures FeedAll(p, [t] + rest) == FeedAll(q, rest)
    ensures q.ctx == p.ctx && Shown(q) == Shown(p) + [ch]
  {
    Letter(p, t);
    FeedOne(p, t, rest);
    q := p.(pending := p.pending + [t]);
  }

  lemma TokensOfChar(ch: char)
    ensures WordToken(ch).Some? ==> WordToken(ch).value < 28 && CharIn(Word, WordToken(ch).value) == ch
    ensures SpecialToken(ch).Some? ==> SpecialToken(ch).value < 28 && CharIn(Special, SpecialToken(ch).value) == ch
    ensures Special2Token(ch).Some? ==> Special2Token(ch).value < 28 && CharIn(Special2, Special2Token(ch).value) == ch
  {
  }

  lemma DigitFollows(p: Parsing, depth: Depth, ch: char, rest: seq<Token>) returns (q: Parsing)
    requires p.ctx == CtxAt(depth) && IsDigitChar(ch)
    ensures FeedAll(p, EncodeChar(ch, depth).0 + rest) == FeedAll(q, rest)
    ensures q.ctx == Word && Shown(q) == Shown(p) + [ch]
  {
    hide FeedAll, Shown, Times;
    var d: Digit := ch as int - 48;
    var r1 := [d as Token] + ([START] + rest);
    assert EncodeChar(ch, depth).0 + rest == Times(END, depth) + ([END] + r1);
    var p1 := PopsTo(p, depth, [END] + r1);
    var p2 := GoesUp(p1, r1);
    DigitShows(p2, d);
    FeedOne(p2, d, [START] + rest);
    q := GoesDown(p2.(pending := [d as int]), rest);
  }

  lemma LetterFollows(p: Parsing, depth: Depth, ch: char, rest: seq<Token>) returns (q: Parsing)
    requires p.ctx == CtxAt(depth) && !IsDigitChar(ch) && WordToken(ch).Some?
    ensures FeedAll(p, EncodeChar(ch, depth).0 + rest) == FeedAll(q, rest)
    ensures q.ctx == Word && Shown(q) == Shown(p) + [ch]
  {
    hide FeedAll, Shown, Times, CharIn, SpecialToken, Special2Token, IndexIn;
    var t := WordToken(ch).value;
    TokensOfChar(ch);
    hide WordToken;
    assert EncodeChar(ch, depth).0 + rest == Times(END, depth) + ([t] + rest);
    var p1 := PopsTo(p, depth, [t] + rest);
    q := Spells(p1, t, ch, rest);
  }

  lemma SpecialFollows(p: Parsing, depth: Depth, ch: char, rest: seq<Token>) returns (q: Parsing)
    requires p.ctx == CtxAt(depth) && !IsDigitChar(ch) && WordToken(ch).None? && SpecialToken(ch).Some?
    ensures FeedAll(p, EncodeChar(ch, depth).0 + rest) == FeedAll(q, rest)
    ensures q.ctx == Special && Shown(q) == Shown(p) + [ch]
  {
    hide FeedAll, Shown, CharIn, Special2Token, IndexIn, Times;
    var t := SpecialToken(ch).value;
    TokensOfChar(ch);
    hide WordToken, SpecialToken;
    var p1 := p;
    if depth == 0 {
      assert EncodeChar(ch, depth).0 + rest == [START] + ([t] + rest);
      p1 := GoesDown(p, [t] + rest);
    } else if depth == 1 {
      assert EncodeChar(ch, depth).0 + rest == [t] + rest;
    } else {
      assert EncodeChar(ch, depth).0 + rest == [END] + ([t] + rest);
      p1 := GoesUp(p, [t] + rest);
    }
    q := Spells(p1, t, ch, rest);
  }

  lemma Special2Follows(p: Parsing, depth: Depth, ch: char, rest: seq<Token>) returns (q: Parsing)
    requires p.ctx == CtxAt(depth) && !IsDigitChar(ch) && WordToken(ch).None? && SpecialToken(ch).None?
    requires Special2Token(ch).Some?
    ensures FeedAll(p, EncodeChar(ch, depth).0 + rest) == FeedAll(q, rest)
    ensures q.ctx == Special2 && Shown(q) == Shown(p) + [ch]
  {
    hide FeedAll, Shown, CharIn, IndexIn, Times, IsDigitChar, WordToken, SpecialToken, Special2Token;
    var t := Special2Token(ch).value;
    TokensOfChar(ch);
    assert EncodeChar(ch, depth).0 + rest == Times(START, 2 - depth) + ([t] + rest);
    var p1 := SinksTo(p, depth, [t] + rest);
    q := Spells(p1, t, ch, rest);
  }

  /** One character on: the parser stands in the context of the encoder's depth,
      and shows the character. */
  lemma CharFollows(p: Parsing, depth: Depth, ch: char, rest: seq<Token>) returns (q: Parsing)
    requires p.ctx == CtxAt(depth) && Encodable(ch)
    ensures FeedAll(p, EncodeChar(ch, depth).0 + rest) == FeedAll(q, rest)
    ensures q.ctx == CtxAt(EncodeChar(ch, depth).1) && Shown(q) == Shown(p) + [ch]
  {
    if IsDigitChar(ch) {
      q := DigitFollows(p, depth, ch, rest);
    } else if WordToken(ch).Some? {
      q := LetterFollows(p, depth, ch, rest);
    } else if SpecialToken(ch).Some? {
      q := SpecialFollows(p, depth, ch, rest);
    } else {
      q := Special2Follows(p, depth, ch, rest);
    }
  }

  /** The rest of a word, whatever follows it in the stream. */
  lemma {:induction false} RestFollows(p: Parsing, depth: Depth, text: string, rest: seq<Token>) returns (q: Parsing)
    requires p.ctx == CtxAt(depth) && EncodeRest(text, depth).Some?
    ensures FeedAll(p, EncodeRest(text, depth).value + rest) == FeedAll(q, rest)
    ensures q.ctx == Num && q.pending == [] && Shown(q) == Shown(p) + text
    decreases |text|
  {
    hide FeedAll, Shown, EncodeChar, Encodable;
    if text == [] {
      assert Times(END, depth) + [END] + rest == Times(END, depth) + ([END] + rest);
      var p1 := PopsTo(p, depth, [END] + rest);
      q := GoesUp(p1, rest);
      assert Shown(p) + text == Shown(p);
    } else {
      var (ts, d) := EncodeChar(text[0], depth);
      var more := EncodeRest(text[1..], d).value;
      assert ts + more + rest == ts + (more + rest);
      var p1 := CharFollows(p, depth, text[0], more + rest);
      q := RestFollows(p1, d, text[1..], rest);
      assert Shown(p) + [text[0]] + text[1..] == Shown(p) + text;
    }
  }

  lemma {:induction false} EncodesAll(text: string, depth: Depth)
    ensures EncodeRest(text, depth).Some? <==> forall k :: 0 <= k < |text| ==> Encodable(text[k])
    decreases |text|
  {
    hide Encodable, EncodeChar;
    if text != [] && Encodable(text[0]) {
      EncodesAll(text[1..], EncodeChar(text[0], depth).1);
      assert text == [text[0]] + text[1..];
    }
  }

  /** A word anywhere in a stream adds its text, and leaves the parser at the top. */
  lemma WordFollows(out: seq<Parsed>, text: string, rest: seq<Token>) returns (q: Parsing)
    requires EncodeWord(text).Some?
    ensures FeedAll(Parsing(Num, [], out), EncodeWord(text).value + rest) == FeedAll(q, rest)
    ensures q.ctx == Num && q.pending == [] && Reconstruct(q.out) == Reconstruct(out) + text
  {
    hide FeedAll, EncodeRest, Reconstruct;
    var p := Parsing(Num, [], out);
    var body := EncodeRest(text, 0).value;
    assert [START] + body + rest == [START] + (body + rest);
    var p1 := GoesDown(p, body + rest);
    q := RestFollows(p1, 0, text, rest);
    assert Finalized(p) == out && Finalized(q) == q.out;
  }

  /** A text of characters that stand for themselves comes back whole. */
  lemma PlainRoundTrip(text: string)
    ensures EncodeWord(text).Some? <==> forall k :: 0 <= k < |text| ==> Encodable(text[k])
    ensures EncodeWord(text).Some? ==> Decoded(EncodeWord(text).value) == Some(text)
  {
    EncodesAll(text, 0);
    if EncodeWord(text).Some? {
      PlainDecodes(text);
    }
  }

  lemma PlainDecodes(text: string)
    requires EncodeWord(text).Some?
    ensures Decoded(EncodeWord(text).value) == Some(text)
  {
    hide *;
    var q := WordFollows([], text, []);
    assert EncodeWord(text).value + [] == EncodeWord(text).value;
    FeedNone(q);
    DecodedIs(EncodeWord(text).value, q);
    ReassembleKeepsText(q.out, "");
    NoText();
    assert "" + Reconstruct(q.out) == Reconstruct(q.out) && "" + text == text;
  }

  lemma DecodedIs(tokens: seq<Token>, q: Parsing)
    requires FeedAll(Parsing(Num, [], []), tokens) == Some(q) && q.ctx == Num && q.pending == []
    ensures Decoded(tokens) == Some(Reconstruct(Reassemble(q.out, "")))
  {
    hide FeedAll, Reconstruct, Reassemble;
    assert Finalized(q) == q.out;
  }

  /** The text in a stream of tokens that leaves the parser at the top. */
  function Decoded(tokens: seq<Token>): Option<string> {
    var p := FeedAll(START_STATE, tokens);
    if p.None? || p.value.ctx != Num then None else Some(Reconstruct(Reassemble(Finalized(p.value), "")))
  }

  // ----- characters outside ASCII -----

  /** What the encoder takes a character for: itself in ASCII; outside, the digit it
      is, or its upper case when that has a token of its own, or itself. Which
      characters those are is the language's affair. */
  type Fold = char -> char

  ghost predicate FoldOk(fold: Fold) {
    forall ch: char :: fold(ch) == ch || (ch as int >= 128 && (IsDigitChar(fold(ch)) || WordToken(fold(ch)).Some?))
  }

  function Folded(text: string, fold: Fold): (r: string)
    ensures |r| == |text|
  {
    seq(|text|, k requires 0 <= k < |text| => fold(text[k]))
  }

  /** The encoder accepts exactly the texts whose every character is taken for one
      that has a token or is a digit. What comes back is the text of what they are
      taken for, so it is the text itself exactly when each is taken for itself. */
  lemma WordRoundTrip(text: string, fold: Fold)
    requires FoldOk(fold)
    ensures var tokens := EncodeWord(Folded(text, fold));
            && (tokens.Some? <==> forall k :: 0 <= k < |text| ==> Encodable(fold(text[k])))
            && (tokens.Some? ==> Decoded(tokens.value) == Some(Folded(text, fold)))
            && (tokens.Some? ==>
                  (Decoded(tokens.value) == Some(text) <==> forall k :: 0 <= k < |text| ==> fold(text[k]) == text[k]))
  {
    hide EncodeWord, Decoded, Encodable;
    var folded := Folded(text, fold);
    PlainRoundTrip(folded);
    assert forall k :: 0 <= k < |text| ==> folded[k] == fold(text[k]);
    if forall k :: 0 <= k < |text| ==> fold(text[k]) == text[k] {
      assert folded == text;
    }
  }

  // ----- the loops -----

  method EncodeNext(ch: char, depth: Depth) returns (ts: seq<Token>, depth': Depth)
    requires Encodable(ch)
    ensures (ts, depth') == EncodeChar(ch, depth)
  {
    if IsDigitChar(ch) {
      return Times(END, depth) + [END] + [(ch as int - 48) as Token] + [START], 0;
    }
    if WordToken(ch).Some? {
      return Times(END, depth) + [WordToken(ch).value], 0;
    }
    if SpecialToken(ch).Some? {
      var move: seq<Token> := if depth > 1 then [END] else if depth < 1 then [START] else [];
      return move + [SpecialToken(ch).value], 1;
    }
    return Times(START, 2 - depth) + [Special2Token(ch).value], 2;
  }

  /** The encoder's loop, with the depth it keeps. */
  method EncodeText(text: string, fold: Fold) returns (tokens: Option<seq<Token>>)
    ensures tokens == EncodeWord(Folded(text, fold))
  {
    hide EncodeChar, Encodable;
    ghost var folded := Folded(text, fold);
    var out: seq<Token> := [START];
    var depth: Depth := 0;
    var i := 0;
    assert folded[0..] == folded;
    while i < |text|
      invariant i <= |text|
      invariant EncodeWord(folded) == Joined(out, EncodeRest(folded[i..], depth))
    {
      assert folded[i..][1..] == folded[i + 1..];
      var ch := fold(text[i]);
      if !Encodable(ch) {
        return None;
      }
      ghost var rest := EncodeRest(folded[i + 1..], EncodeChar(ch, depth).1);
      JoinsStep(out, EncodeChar(ch, depth).0, rest);
      var ts;
      ts, depth := EncodeNext(ch, depth);
      out := out + ts;
      i := i + 1;
    }
    assert folded[i..] == [];
    return Some(out + (Times(END, depth) + [END]));
  }

  function Joined(out: seq<Token>, rest: Option<seq<Token>>): Option<seq<Token>> {
    if rest.None? then None else Some(out + rest.value)
  }

  lemma JoinsStep(out: seq<Token>, ts: seq<Token>, rest: Option<seq<Token>>)
    ensures Joined(out, Joined(ts, rest)) == Joined(out + ts, rest)
  {
    if rest.Some? {
      assert out + (ts + rest.value) == out + ts + rest.value;
    }
  }

  method ReassembleWords(xs: seq<Parsed>) returns (merged: seq<Parsed>)
    ensures merged == Reassemble(xs, "")
  {
    hide Reassemble, Flush;
    merged := [];
    var pending := "";
    var i := 0;
    assert xs[0..] == xs;
    assert [] + Reassemble(xs, "") == Reassemble(xs, "");
    while i < |xs|
      invariant i <= |xs| && merged + Reassemble(xs[i..], pending) == Reassemble(xs, "")
    {
      MergeStep(merged, xs, i, pending);
      if xs[i].Text? {
        pending := pending + xs[i].text;
      } else {
        if pending != "" {
          merged := merged + [Text(pending)];
          pending := "";
        }
        merged := merged + [xs[i]];
      }
      i := i + 1;
    }
    assert xs[i..] == [];
    MergeEnd(merged, pending);
    if pending != "" {
      merged := merged + [Text(pending)];
    }
  }

  function Flushed(merged: seq<Parsed>, pending: string): seq<Parsed> {
    if pending == "" then merged else merged + [Text(pending)]
  }

  lemma MergeStep(merged: seq<Parsed>, xs: seq<Parsed>, i: nat, pending: string)
    requires i < |xs|
    ensures merged + Reassemble(xs[i..], pending)
         == if xs[i].Text? then merged + Reassemble(xs[i + 1..], pending + xs[i].text)
            else Flushed(merged, pending) + [xs[i]] + Reassemble(xs[i + 1..], "")
  {
    hide Reassemble;
    assert xs[i..][1..] == xs[i + 1..];
    ReassembleStep(xs[i..], pending);
    var rest := Reassemble(xs[i + 1..], "");
    assert merged + (Flush(pending) + [xs[i]] + rest) == merged + Flush(pending) + [xs[i]] + rest;
    assert merged + Flush(pending) == Flushed(merged, pending);
  }

  lemma MergeEnd(merged: seq<Parsed>, pending: string)
    ensures merged + Reassemble([], pending) == Flushed(merged, pending)
  {
    hide Reassemble;
    ReassembleNone(pending);
  }

  method ReconstructAll(xs: seq<Parsed>) returns (result: string)
    ensures result == Reconstruct(xs)
  {
    result := "";
    var i := 0;
    hide Piece;
    while i < |xs|
      invariant i <= |xs| && result == Reconstruct(xs[..i])
    {
      assert xs[..i + 1] == xs[..i] + [xs[i]];
      ReconstructAppend(xs[..i], [xs[i]]);
      ReconstructOne(xs[i]);
      result := result + Piece(xs[i]);
      i := i + 1;
    }
    assert xs[..i] == xs;
  }
}
