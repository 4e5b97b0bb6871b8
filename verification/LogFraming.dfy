/** Log files: entries of fixed words, packed tokens, padding and a digest, one
    after another, and a reader that stops at the first entry it cannot find
    whole (python/griddb_transactions.py, python/griddb_wal.py). */
module LogFraming {
  import opened Lexicon
  import opened Packing
  import opened Packers

  const TWO32: nat := 0x1_0000_0000
  const DIGEST: nat := 32

  /** How many 32-bit words stand before the tokens, which of them counts the
      tokens, and the magic number in the first. */
  datatype Format = Format(magic: nat, words: nat, countAt: nat)

  /** Transaction log: magic, transaction, record, count, flags. */
  const TXN_LOG := Format(0x54584E57, 5, 3)
  /** Grid log: magic, sequence, count, offset of the previous digest. */
  const GRID_LOG := Format(0x47444257, 4, 2)
  /** Positioned log, which replicas read: magic, sequence, record, count, previous. */
  const POSITIONED_LOG := Format(0x4750574C, 5, 3)

  predicate Usable(f: Format) {
    0 < f.countAt < f.words && f.magic < TWO32
  }

  datatype Entry = Entry(words: seq<nat>, tokens: seq<Token>)

  /** What an appender writes: every word fits, the first is the magic, one is the count. */
  predicate Proper(f: Format, e: Entry) {
    && Usable(f) && |e.words| == f.words
    && (forall k :: 0 <= k < |e.words| ==> e.words[k] < TWO32)
    && e.words[0] == f.magic && e.words[f.countAt] == |e.tokens|
  }

  /** Big-endian. */
  function U32(v: nat): (b: seq<nat>)
    ensures |b| == 4
  {
    DigitsOf(v, 8, 4)
  }

  function U32s(ws: seq<nat>): (b: seq<nat>)
    ensures |b| == 4 * |ws|
  {
    if ws == [] then [] else U32(ws[0]) + U32s(ws[1..])
  }

  function WordAt(data: seq<nat>, k: nat): nat
    requires 4 * k + 4 <= |data|
  {
    Num(data[4 * k..4 * k + 4], 8)
  }

  function Words(data: seq<nat>, n: nat): (ws: seq<nat>)
    requires 4 * n <= |data|
    ensures |ws| == n
  {
    seq(n, k requires 0 <= k < n => WordAt(data, k))
  }

  function Head(f: Format): nat {
    4 * f.words
  }

  function Overhead(f: Format): nat {
    Head(f) + 4 + DIGEST
  }

  function TokenBytes(count: nat): nat {
    (5 * count + 7) / 8
  }

  /** What the digest is taken of. */
  function Content(e: Entry): seq<nat> {
    U32s(e.words) + Pack(e.tokens) + U32(Pad(|e.tokens|))
  }

  /** The digest is any function to 32 bytes; the readers skip it. */
  function Frame(e: Entry, sha: seq<nat> -> seq<nat>): seq<nat> {
    Content(e) + sha(Content(e))
  }

  function Frames(es: seq<Entry>, sha: seq<nat> -> seq<nat>): seq<nat> {
    if es == [] then [] else Frame(es[0], sha) + Frames(es[1..], sha)
  }

  // ----- the reader -----

  /** The entry at the head of the data, and its length; None when the data is too
      short for it or does not start with the magic. */
  function ReadEntry(f: Format, data: seq<nat>): (r: Option<(Entry, nat)>)
    requires Usable(f)
    ensures r.Some? ==> 0 < r.value.1 <= |data|
  {
    if |data| < Overhead(f) then None
    else if WordAt(data, 0) != f.magic then None
    else
      var tb := TokenBytes(WordAt(data, f.countAt));
      if |data| < Head(f) + tb then None
      else if |data| < Head(f) + tb + 4 then None
      else if |data| < Head(f) + tb + 4 + DIGEST then None
      else
        var packed := data[Head(f)..Head(f) + tb];
        var pad := Num(data[Head(f) + tb..Head(f) + tb + 4], 8);
        Some((Entry(Words(data, f.words), UnpackTokens(packed, Takes(tb, pad, None))), Overhead(f) + tb))
  }

  function ReadAll(f: Format, data: seq<nat>): seq<Entry>
    requires Usable(f)
    decreases |data|
  {
    var r := ReadEntry(f, data);
    if r.None? then [] else [r.value.0] + ReadAll(f, data[r.value.1..])
  }

  // ----- reading back what was written -----

  lemma U32Reads(v: nat)
    requires v < TWO32
    ensures Num(U32(v), 8) == v
  {
    TwoTo32();
    hide Pow2, Num, DigitsOf;
    assert 8 * 4 == 32;
    DigitsNum(v, 8, 4);
  }

  lemma TwoTo32()
    ensures Pow2(32) == TWO32
  {
    Pow2Add(16, 16);
    assert Pow2(8) == 256;
    Pow2Add(8, 8);
  }

  lemma {:induction false} U32sAt(ws: seq<nat>, k: nat)
    requires k < |ws|
    ensures U32s(ws)[4 * k..4 * k + 4] == U32(ws[k])
  {
    hide U32;
    if k > 0 {
      U32sAt(ws[1..], k - 1);
      assert U32s(ws)[4 * k..4 * k + 4] == U32s(ws[1..])[4 * (k - 1)..4 * (k - 1) + 4];
    }
  }

  lemma FrameSize(e: Entry, sha: seq<nat> -> seq<nat>)
    requires |sha(Content(e))| == DIGEST
    ensures |Pack(e.tokens)| == TokenBytes(|e.tokens|)
    ensures |Frame(e, sha)| == 4 * |e.words| + TokenBytes(|e.tokens|) + 4 + DIGEST
  {
    hide Pack, U32, U32s;
    PadFills(|e.tokens|);
    PackSize(e.tokens);
  }

  lemma PackSize(tokens: seq<Token>)
    ensures |Pack(tokens)| == (5 * |tokens| + Pad(|tokens|)) / 8
  {
    hide DigitsOf, Num;
  }

  /** The words of any data that starts with an entry's words. */
  lemma HeadWords(f: Format, e: Entry, data: seq<nat>)
    requires Proper(f, e) && Head(f) <= |data| && data[..Head(f)] == U32s(e.words)
    ensures Words(data, f.words) == e.words
    ensures forall k :: 0 <= k < f.words ==> 4 * k + 4 <= |data| && WordAt(data, k) == e.words[k]
  {
    hide U32, U32s, Num;
    forall k | 0 <= k < f.words ensures WordAt(data, k) == e.words[k] {
      U32sAt(e.words, k);
      U32Reads(e.words[k]);
      assert data[4 * k..4 * k + 4] == data[..Head(f)][4 * k..4 * k + 4];
    }
  }

  lemma PaddingTakes(n: nat)
    ensures Takes(TokenBytes(n), Pad(n), None) == n
  {
    PadFills(n);
    TokenBytesFill(n);
    hide Pad, TokenBytes;
    Division(8 * TokenBytes(n) - Pad(n), 5, n, 0);
  }

  lemma TokenBytesFill(n: nat)
    ensures 8 * TokenBytes(n) == 5 * n + Pad(n)
  {
    PadFills(n);
    hide Pad;
    var k := (5 * n + Pad(n)) / 8;
    Division(5 * n + 7, 8, k, 5 * n + 7 - 8 * k);
  }

  /** A whole frame, whatever follows it, reads as its entry. */
  lemma ReadsFrame(f: Format, e: Entry, sha: seq<nat> -> seq<nat>, rest: seq<nat>)
    requires Proper(f, e) && |sha(Content(e))| == DIGEST
    ensures ReadEntry(f, Frame(e, sha) + rest) == Some((e, |Frame(e, sha)|))
  {
    hide *;
    var data := Frame(e, sha) + rest;
    var n, tb := |e.tokens|, TokenBytes(|e.tokens|);
    FrameParts(f, e, sha, rest);
    TokenBytesFill(n);
    HeadWords(f, e, data);
    PadSmall(n);
    U32Reads(Pad(n));
    PaddingTakes(n);
    UnpackPack(e.tokens);
    UnpackedTokens(Pack(e.tokens), n);
    Reads(f, e, data, n, tb);
  }

  lemma FrameParts(f: Format, e: Entry, sha: seq<nat> -> seq<nat>, rest: seq<nat>)
    requires Proper(f, e) && |sha(Content(e))| == DIGEST
    ensures |Pack(e.tokens)| == TokenBytes(|e.tokens|)
    ensures var data, tb := Frame(e, sha) + rest, TokenBytes(|e.tokens|);
            && |Frame(e, sha)| == Overhead(f) + tb
            && |data| >= Overhead(f) + tb >= Head(f) + tb + 4 >= Head(f)
            && data[..Head(f)] == U32s(e.words)
            && data[Head(f)..Head(f) + tb] == Pack(e.tokens)
            && data[Head(f) + tb..Head(f) + tb + 4] == U32(Pad(|e.tokens|))
    ensures Usable(f) && 0 < f.countAt < f.words == |e.words| && e.words[f.countAt] == |e.tokens|
            && e.words[0] == f.magic
  {
    hide Pack, U32, U32s, TokenBytes;
    FrameSize(e, sha);
  }

  lemma Reads(f: Format, e: Entry, data: seq<nat>, n: nat, tb: nat)
    requires Usable(f) && f.words == |e.words| && n == |e.tokens| && tb == TokenBytes(n)
    requires |data| >= Overhead(f) + tb && |Pack(e.tokens)| == tb
    requires Words(data, f.words) == e.words && WordAt(data, 0) == f.magic && WordAt(data, f.countAt) == n
    requires data[Head(f)..Head(f) + tb] == Pack(e.tokens)
    requires Num(data[Head(f) + tb..Head(f) + tb + 4], 8) == Pad(n)
    requires Takes(tb, Pad(n), None) == n
    requires 5 * n <= 8 * tb && UnpackTokens(Pack(e.tokens), n) == e.tokens
    ensures ReadEntry(f, data) == Some((e, Overhead(f) + tb))
  {
    hide Pack, Num, Words, WordAt, UnpackTokens, Takes, TokenBytes;
  }

  lemma PadSmall(n: nat)
    ensures Pad(n) < TWO32
  {
  }

  /** A frame cut anywhere reads as nothing. */
  lemma TornFrame(f: Format, e: Entry, sha: seq<nat> -> seq<nat>, cut: nat)
    requires Proper(f, e) && |sha(Content(e))| == DIGEST && cut < |Frame(e, sha)|
    ensures ReadEntry(f, Frame(e, sha)[..cut]) == None
  {
    var data := Frame(e, sha)[..cut];
    if cut >= Head(f) {
      TearSwallows(f, e, sha, cut, []);
      assert data + [] == data;
    }
    hide Frame, TokenBytes, WordAt, Num, UnpackTokens, Words, Takes;
  }

  /** Appending after a tear does not mend it. A frame torn past its token count
      swallows what comes after it: nothing more is read until as many bytes have been
      appended as are missing, and then they are read as the torn entry's own. */
  lemma TearSwallows(f: Format, e: Entry, sha: seq<nat> -> seq<nat>, cut: nat, appended: seq<nat>)
    requires Proper(f, e) && |sha(Content(e))| == DIGEST && 4 * f.countAt + 4 <= cut < |Frame(e, sha)|
    ensures var r := ReadEntry(f, Frame(e, sha)[..cut] + appended);
            && (r.None? <==> cut + |appended| < |Frame(e, sha)|)
            && (r.Some? ==> r.value.1 == |Frame(e, sha)|)
            && (r.Some? && cut >= Head(f) ==> r.value.0.words == e.words)
  {
    hide *;
    var data := Frame(e, sha)[..cut] + appended;
    FrameParts(f, e, sha, []);
    assert Frame(e, sha) + [] == Frame(e, sha);
    WordsStay(f, e, sha, cut, data);
    SwallowsAt(f, e, data);
    if cut >= Head(f) {
      assert data[..Head(f)] == Frame(e, sha)[..Head(f)];
      HeadWords(f, e, data);
    }
  }

  /** The magic and the count are read as they were written. */
  lemma WordsStay(f: Format, e: Entry, sha: seq<nat> -> seq<nat>, cut: nat, data: seq<nat>)
    requires Proper(f, e) && |sha(Content(e))| == DIGEST && 4 * f.countAt + 4 <= cut <= |Frame(e, sha)|
    requires cut <= |data| && data[..cut] == Frame(e, sha)[..cut]
    ensures 4 * f.countAt + 4 <= |data| && 4 <= |data|
    ensures WordAt(data, 0) == f.magic && WordAt(data, f.countAt) == |e.tokens|
  {
    var whole := Frame(e, sha);
    FrameParts(f, e, sha, []);
    assert whole + [] == whole;
    HeadWords(f, e, whole);
    hide Frame, Num, U32, U32s;
    SameWord(data, whole, cut, 0);
    SameWord(data, whole, cut, f.countAt);
  }

  lemma SameWord(a: seq<nat>, b: seq<nat>, cut: nat, k: nat)
    requires cut <= |a| && cut <= |b| && a[..cut] == b[..cut] && 4 * k + 4 <= cut
    ensures WordAt(a, k) == WordAt(b, k)
  {
    assert a[4 * k..4 * k + 4] == a[..cut][4 * k..4 * k + 4];
    assert b[4 * k..4 * k + 4] == b[..cut][4 * k..4 * k + 4];
    hide Num;
  }

  /** What the reader does with data that starts with an entry's magic and has its count. */
  lemma SwallowsAt(f: Format, e: Entry, data: seq<nat>)
    requires Usable(f) && 4 * f.countAt + 4 <= |data|
    requires WordAt(data, 0) == f.magic && WordAt(data, f.countAt) == |e.tokens|
    ensures var r := ReadEntry(f, data);
            var size := Overhead(f) + TokenBytes(|e.tokens|);
            && (r.None? <==> |data| < size)
            && (r.Some? ==> r.value.1 == size && Head(f) <= |data| && r.value.0.words == Words(data, f.words))
  {
    hide Num, Words, WordAt, UnpackTokens, Takes, TokenBytes;
  }

  /** The first byte of the magic does not come again in it. */
  predicate StartsOnce(f: Format) {
    var m := U32(f.magic);
    m[1] != m[0] && m[2] != m[0] && m[3] != m[0]
  }

  lemma MagicBytes(a: nat, b: nat, c: nat, d: nat)
    requires a < 256 && b < 256 && c < 256 && d < 256
    ensures U32(((a * 256 + b) * 256 + c) * 256 + d) == [a, b, c, d]
  {
    var units: seq<nat> := [a, b, c, d];
    assert Pow2(8) == 256;
    assert units[..3] == [a, b, c] && [a, b, c][..2] == [a, b] && [a, b][..1] == [a];
    assert Num([], 8) == 0;
    assert Num([a], 8) == a by {
      assert [a][..0] == [];
    }
    assert Num([a, b], 8) == a * 256 + b;
    assert Num([a, b, c], 8) == (a * 256 + b) * 256 + c;
    assert Num(units, 8) == ((a * 256 + b) * 256 + c) * 256 + d;
    NumDigits(units, 8);
  }

  lemma FormatsStartOnce()
    ensures StartsOnce(TXN_LOG) && StartsOnce(GRID_LOG) && StartsOnce(POSITIONED_LOG)
    ensures Usable(TXN_LOG) && Usable(GRID_LOG) && Usable(POSITIONED_LOG)
  {
    MagicBytes(0x54, 0x58, 0x4E, 0x57);
    MagicBytes(0x47, 0x44, 0x42, 0x57);
    MagicBytes(0x47, 0x50, 0x57, 0x4C);
    hide U32;
  }

  /** A frame torn inside its magic cuts the reader off for good: no frame after it is
      ever read. */
  lemma TearInMagic(f: Format, e: Entry, sha: seq<nat> -> seq<nat>, cut: nat, appended: seq<nat>)
    requires Proper(f, e) && |sha(Content(e))| == DIGEST && StartsOnce(f) && 0 < cut < 4
    requires |appended| >= 4 && appended[..4] == U32(f.magic)
    ensures ReadEntry(f, Frame(e, sha)[..cut] + appended) == None
  {
    hide *;
    var m := U32(f.magic);
    FrameParts(f, e, sha, []);
    assert Frame(e, sha) + [] == Frame(e, sha);
    FirstWord(f, e);
    var whole := Frame(e, sha);
    assert |whole| >= Head(f) >= 4 && whole[..4] == whole[..Head(f)][..4] == m;
    var data := whole[..cut] + appended;
    assert data[..4] == m[..cut] + m[..4 - cut];
    TornWord(f, data, cut);
    NoMagic(f, data);
  }

  lemma FirstWord(f: Format, e: Entry)
    requires Proper(f, e)
    ensures Head(f) >= 4 && U32s(e.words)[..4] == U32(f.magic)
  {
    U32sAt(e.words, 0);
    hide U32;
  }

  lemma TornWord(f: Format, data: seq<nat>, cut: nat)
    requires StartsOnce(f) && Usable(f) && 0 < cut < 4 && |data| >= 4
    requires data[..4] == U32(f.magic)[..cut] + U32(f.magic)[..4 - cut]
    ensures WordAt(data, 0) != f.magic
  {
    var m := U32(f.magic);
    var word := data[..4];
    DigitsFit(f.magic, 8, 4);
    assert Fits(word, 8);
    assert word[cut] == m[0];
    NumDigits(word, 8);
    assert data[4 * 0..4 * 0 + 4] == word;
    hide Num, DigitsOf;
  }

  lemma NoMagic(f: Format, data: seq<nat>)
    requires Usable(f) && |data| >= 4 && WordAt(data, 0) != f.magic
    ensures ReadEntry(f, data) == None
  {
    hide Num, WordAt, UnpackTokens, Takes, TokenBytes, Words;
  }

  /** How many entries lie wholly inside the first cut bytes. */
  function Whole(es: seq<Entry>, sha: seq<nat> -> seq<nat>, cut: nat): (k: nat)
    ensures k <= |es|
  {
    if es == [] || cut < |Frame(es[0], sha)| then 0
    else 1 + Whole(es[1..], sha, cut - |Frame(es[0], sha)|)
  }

  lemma {:induction false} WholeFits(es: seq<Entry>, sha: seq<nat> -> seq<nat>, cut: nat)
    requires cut <= |Frames(es, sha)|
    ensures var k := Whole(es, sha, cut);
            && |Frames(es[..k], sha)| <= cut
            && (k < |es| ==> cut < |Frames(es[..k + 1], sha)|)
    decreases |es|
  {
    hide Frame;
    if es != [] && cut >= |Frame(es[0], sha)| {
      var k := Whole(es[1..], sha, cut - |Frame(es[0], sha)|);
      WholeFits(es[1..], sha, cut - |Frame(es[0], sha)|);
      assert es[..k + 1][1..] == es[1..][..k];
      if k + 1 < |es| {
        assert es[..k + 2][1..] == es[1..][..k + 1];
      }
    } else if es != [] {
      assert es[..1][1..] == [] && |es[..0]| == 0;
    }
  }

  ghost predicate AllProper(f: Format, es: seq<Entry>, sha: seq<nat> -> seq<nat>) {
    && Usable(f)
    && (forall k :: 0 <= k < |es| ==> Proper(f, es[k]))
    && (forall b :: |sha(b)| == DIGEST)
  }

  /** A crash may leave any prefix of the file: reading it gives exactly the
      entries that lie wholly inside it, and never a wrong one. */
  lemma {:induction false} ReadsPrefix(f: Format, es: seq<Entry>, sha: seq<nat> -> seq<nat>, cut: nat)
    requires AllProper(f, es, sha) && cut <= |Frames(es, sha)|
    ensures ReadAll(f, Frames(es, sha)[..cut]) == es[..Whole(es, sha, cut)]
    decreases |es|
  {
    hide Frame, ReadEntry, Proper;
    var data := Frames(es, sha)[..cut];
    if es == [] {
      assert data == [];
      NothingThere(f);
    } else {
      assert Proper(f, es[0]);
      var n := |Frame(es[0], sha)|;
      if cut < n {
        assert data == Frame(es[0], sha)[..cut];
        TornFrame(f, es[0], sha, cut);
      } else {
        var more := Frames(es[1..], sha)[..cut - n];
        assert data == Frame(es[0], sha) + more;
        ReadsFrame(f, es[0], sha, more);
        assert data[n..] == more;
        ReadsPrefix(f, es[1..], sha, cut - n);
        assert [es[0]] + es[1..][..Whole(es[1..], sha, cut - n)] == es[..Whole(es, sha, cut)];
      }
    }
  }

  /** How far into the entry it tears a cut goes. */
  function Torn(es: seq<Entry>, sha: seq<nat> -> seq<nat>, cut: nat): nat {
    if es == [] || cut < |Frame(es[0], sha)| then cut
    else Torn(es[1..], sha, cut - |Frame(es[0], sha)|)
  }

  /** So the reader of a torn log that was appended to, with a commit say, sees exactly
      what was whole before the tear as long as what was appended is shorter than the
      bytes the torn entry misses; from then on it sees more. */
  lemma {:induction false} TearHides(f: Format, es: seq<Entry>, sha: seq<nat> -> seq<nat>, cut: nat, appended: seq<nat>)
    requires AllProper(f, es, sha) && cut <= |Frames(es, sha)|
    requires Whole(es, sha, cut) < |es| && Torn(es, sha, cut) >= 4 * f.countAt + 4
    ensures var k := Whole(es, sha, cut);
            && es[..k] <= ReadAll(f, Frames(es, sha)[..cut] + appended)
            && (ReadAll(f, Frames(es, sha)[..cut] + appended) == es[..k]
                <==> Torn(es, sha, cut) + |appended| < |Frame(es[k], sha)|)
    decreases |es|
  {
    hide Frame, ReadEntry, Proper;
    var n := |Frame(es[0], sha)|;
    assert Proper(f, es[0]);
    if cut < n {
      assert Frames(es, sha)[..cut] == Frame(es[0], sha)[..cut];
      TearSwallows(f, es[0], sha, cut, appended);
    } else {
      var more := Frames(es[1..], sha)[..cut - n] + appended;
      assert Frames(es, sha)[..cut] + appended == Frame(es[0], sha) + more;
      ReadsFrame(f, es[0], sha, more);
      assert (Frame(es[0], sha) + more)[n..] == more;
      TearHides(f, es[1..], sha, cut - n, appended);
      var k := Whole(es[1..], sha, cut - n);
      assert [es[0]] + es[1..][..k] == es[..k + 1];
      AfterFirst(es[0], es[1..][..k], ReadAll(f, more));
    }
  }

  lemma AfterFirst(e: Entry, a: seq<Entry>, b: seq<Entry>)
    requires a <= b
    ensures [e] + a <= [e] + b && ([e] + a == [e] + b <==> a == b)
  {
    if [e] + a == [e] + b {
      assert ([e] + a)[1..] == a && ([e] + b)[1..] == b;
    }
  }

  lemma NothingThere(f: Format)
    requires Usable(f)
    ensures ReadEntry(f, []) == None
  {
  }

  lemma {:induction false} WholeAll(es: seq<Entry>, sha: seq<nat> -> seq<nat>)
    ensures Whole(es, sha, |Frames(es, sha)|) == |es|
  {
    hide Frame;
    if es != [] {
      WholeAll(es[1..], sha);
    }
  }

  /** The whole file reads as everything appended to it. */
  lemma ReadsEverything(f: Format, es: seq<Entry>, sha: seq<nat> -> seq<nat>)
    requires AllProper(f, es, sha)
    ensures ReadAll(f, Frames(es, sha)) == es
  {
    ReadsPrefix(f, es, sha, |Frames(es, sha)|);
    WholeAll(es, sha);
    assert Frames(es, sha)[..|Frames(es, sha)|] == Frames(es, sha);
    assert es[..|es|] == es;
  }

  lemma {:induction false} FramesSnoc(es: seq<Entry>, e: Entry, sha: seq<nat> -> seq<nat>)
    ensures Frames(es + [e], sha) == Frames(es, sha) + Frame(e, sha)
  {
    hide Frame;
    if es == [] {
      assert [] + [e] == [e] && [e][1..] == [];
    } else {
      assert (es + [e])[1..] == es[1..] + [e];
      FramesSnoc(es[1..], e, sha);
    }
  }

  // ----- the file -----

  class Log {
    const format: Format
    const sha: seq<nat> -> seq<nat>
    var file: seq<nat>
    ghost var entries: seq<Entry>

    /** The file is the frames of what was appended. */
    ghost predicate Valid()
      reads this
    {
      AllProper(format, entries, sha) && file == Frames(entries, sha)
    }

    constructor (format: Format, sha: seq<nat> -> seq<nat>)
      requires Usable(format) && forall b :: |sha(b)| == DIGEST
      ensures Valid() && entries == [] && this.format == format && this.sha == sha
    {
      this.format, this.sha, file, entries := format, sha, [], [];
    }

    method Append(e: Entry)
      requires Valid() && Proper(format, e)
      modifies this
      ensures Valid() && entries == old(entries) + [e]
    {
      FramesSnoc(entries, e, sha);
      var packed, pad := PackToBytes(e.tokens);
      var content := U32s(e.words) + packed + U32(pad);
      file := file + (content + sha(content));
      entries := entries + [e];
    }

    /** Reads from the start while whole entries are there. */
    method ReadEntries() returns (es: seq<Entry>)
      requires Usable(format)
      ensures es == ReadAll(format, file)
      ensures Valid() ==> es == entries
    {
      hide ReadEntry, Frame, Frames, AllProper;
      var offset := 0;
      es := [];
      assert file[0..] == file && [] + ReadAll(format, file) == ReadAll(format, file);
      while true
        invariant 0 <= offset <= |file|
        invariant es + ReadAll(format, file[offset..]) == ReadAll(format, file)
        decreases |file| - offset
      {
        var r := ReadEntry(format, file[offset..]);
        if r.None? {
          break;
        }
        assert file[offset..][r.value.1..] == file[offset + r.value.1..];
        es := es + [r.value.0];
        offset := offset + r.value.1;
      }
      if Valid() {
        ReadsEverything(format, entries, sha);
      }
    }
  }
}
