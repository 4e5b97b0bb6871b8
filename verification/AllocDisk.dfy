/** The two files of an AllocGrid as values: a data region that is appended to and
    a table of entries that point into it (python/griddb_alloc.py). */
module AllocDisk {
  import opened Lexicon
  import opened Packing

  const HEADER: nat := 12

  datatype Flag = Free | Allocated | Dead

  datatype AllocEntry = AllocEntry(off: nat, bits: nat, flag: Flag)

  const NOTHING := AllocEntry(0, 0, Free)

  predicate IsFree(e: AllocEntry) {
    e.flag == Free || e.off == 0
  }

  function ByteLength(bits: nat): nat {
    (bits + 7) / 8
  }

  /** data is the data file, its first HEADER bytes the place of the header; end is
      the end of the used part, as the header says; alloc is the table. */
  datatype Disk = Disk(data: seq<nat>, end: nat, alloc: seq<AllocEntry>)

  const EMPTY := Disk([0, 0, 0, 0, 0, 0, 0, 0, 0, 0, 0, 0], HEADER, [])

  /** The table ends where it ends: past it every entry is free. */
  function EntryAt(d: Disk, rid: nat): AllocEntry {
    if rid < |d.alloc| then d.alloc[rid] else NOTHING
  }

  datatype Record = Record(tokens: seq<Token>, off: nat, bits: nat)

  /** The second half of a read: the bytes an entry points to, as tokens. */
  function Fetch(d: Disk, e: AllocEntry): Option<Record> {
    if IsFree(e) || e.flag == Dead then None
    else
      var raw := Raw(d.data, e.off, ByteLength(e.bits));
      if raw == [] || 8 * |raw| < 5 * (e.bits / 5) then None
      else Some(Record(UnpackTokens(raw, e.bits / 5), e.off, e.bits))
  }

  /** A read at an offset, cut short by the end of the file. */
  function Raw(data: seq<nat>, off: nat, len: nat): seq<nat> {
    if off >= |data| then [] else if off + len <= |data| then data[off..off + len] else data[off..]
  }

  function ReadRecord(d: Disk, rid: nat): Option<Record> {
    Fetch(d, EntryAt(d, rid))
  }

  function ReadTokens(d: Disk, rid: nat): Option<seq<Token>> {
    var r := ReadRecord(d, rid);
    if r.None? then None else Some(r.value.tokens)
  }

  function Zeros(n: nat): (z: seq<nat>)
    ensures |z| == n
  {
    if n == 0 then [] else [0] + Zeros(n - 1)
  }

  /** Overwrites from off on, growing the file when needed, with zeros in any gap. */
  function PutBytes(data: seq<nat>, off: nat, bytes: seq<nat>): (r: seq<nat>)
    ensures |r| == if off + |bytes| < |data| then |data| else off + |bytes|
  {
    (if off <= |data| then data[..off] else data + Zeros(off - |data|)) + bytes
    + (if off + |bytes| < |data| then data[off + |bytes|..] else [])
  }

  function SetEntry(alloc: seq<AllocEntry>, rid: nat, e: AllocEntry): (r: seq<AllocEntry>)
    ensures |r| == if rid < |alloc| then |alloc| else rid + 1
    ensures r[rid] == e
    ensures forall k :: 0 <= k < |r| && k != rid ==> r[k] == if k < |alloc| then alloc[k] else NOTHING
  {
    if rid < |alloc| then alloc[rid := e]
    else alloc + seq(rid - |alloc|, i => NOTHING) + [e]
  }

  // ----- the disk effects of a write, in order -----

  function AppendData(d: Disk, tokens: seq<Token>): Disk {
    d.(data := PutBytes(d.data, d.end, Pack(tokens)))
  }

  function MoveEnd(d: Disk, tokens: seq<Token>): Disk {
    d.(end := d.end + |Pack(tokens)|)
  }

  /** A table too short for the entry first grows with zeros, that is free entries. */
  function GrowTable(d: Disk, rid: nat): Disk {
    if rid < |d.alloc| then d else d.(alloc := d.alloc + seq(rid + 1 - |d.alloc|, i => NOTHING))
  }

  /** Sets the entry. The table may have grown to hold it or may be about to: free
      entries past its end and no entries there are the same to every reader. */
  function Point(d: Disk, rid: nat, off: nat, tokens: seq<Token>): Disk {
    d.(alloc := SetEntry(d.alloc, rid, AllocEntry(off, 5 * |tokens|, Allocated)))
  }

  function WriteRecord(d: Disk, rid: nat, tokens: seq<Token>): Disk {
    Point(MoveEnd(AppendData(d, tokens), tokens), rid, d.end, tokens)
  }

  function DeleteRecord(d: Disk, rid: nat): Disk {
    var e := EntryAt(d, rid);
    if IsFree(e) then d else d.(alloc := SetEntry(d.alloc, rid, e.(flag := Dead)))
  }

  /** Whatever the table points to lies inside the used part of the data file. */
  ghost predicate Sane(d: Disk) {
    && HEADER <= d.end <= |d.data|
    && Fits(d.data, 8)
    && (forall k :: 0 <= k < |d.alloc| ==> Inside(d, d.alloc[k]))
  }

  ghost predicate Inside(d: Disk, e: AllocEntry) {
    IsFree(e) || (HEADER <= e.off && e.off + ByteLength(e.bits) <= d.end && e.bits % 5 == 0)
  }

  // ----- frames -----

  lemma PackLength(tokens: seq<Token>)
    ensures |Pack(tokens)| == ByteLength(5 * |tokens|)
    ensures Fits(Pack(tokens), 8)
  {
    PadFills(|tokens|);
    PackNum(tokens);
  }

  lemma AppendFacts(d: Disk, tokens: seq<Token>)
    requires Sane(d)
    ensures var e := AppendData(d, tokens);
            && Sane(e) && d.end + |Pack(tokens)| <= |e.data|
            && e.data[..d.end] == d.data[..d.end]
            && e.data[d.end..d.end + |Pack(tokens)|] == Pack(tokens)
  {
    PackLength(tokens);
  }

  lemma RawFrame(data: seq<nat>, data': seq<nat>, end: nat, off: nat, len: nat)
    requires off + len <= end <= |data| && end <= |data'| && data'[..end] == data[..end]
    ensures Raw(data', off, len) == Raw(data, off, len)
  {
    assert data[off..off + len] == data[..end][off..off + len];
    assert data'[off..off + len] == data'[..end][off..off + len];
  }

  /** Bytes written past what an entry points to do not show through it. */
  lemma FetchFrame(d: Disk, d': Disk, e: AllocEntry)
    requires Sane(d) && Inside(d, e)
    requires d.end <= |d'.data| && d'.data[..d.end] == d.data[..d.end]
    ensures Fetch(d', e) == Fetch(d, e)
  {
    hide UnpackTokens, Fits;
    if !IsFree(e) {
      RawFrame(d.data, d'.data, d.end, e.off, ByteLength(e.bits));
      hide Raw;
    }
  }

  lemma EntryInside(d: Disk, rid: nat)
    requires Sane(d)
    ensures Inside(d, EntryAt(d, rid))
  {
  }

  /** An entry that points to packed tokens reads as those tokens. */
  lemma FetchPacked(d: Disk, off: nat, tokens: seq<Token>)
    requires HEADER <= off && off + |Pack(tokens)| <= |d.data| && tokens != []
    requires d.data[off..off + |Pack(tokens)|] == Pack(tokens)
    ensures Fetch(d, AllocEntry(off, 5 * |tokens|, Allocated)) == Some(Record(tokens, off, 5 * |tokens|))
  {
    hide Pack, Unpack, UnpackTokens, Fits;
    PackLength(tokens);
    UnpackPack(tokens);
    UnpackedTokens(Pack(tokens), |tokens|);
  }

  lemma GrowFacts(d: Disk, rid: nat, off: nat, tokens: seq<Token>)
    ensures var grown := GrowTable(d, rid);
            && grown.data == d.data && grown.end == d.end && rid < |grown.alloc|
            && (forall r: nat :: EntryAt(grown, r) == EntryAt(d, r))
            && (Sane(d) ==> Sane(grown))
            && Point(grown, rid, off, tokens) == Point(d, rid, off, tokens)
  {
    var grown := GrowTable(d, rid);
    var e := AllocEntry(off, 5 * |tokens|, Allocated);
    assert SetEntry(grown.alloc, rid, e) == SetEntry(d.alloc, rid, e);
    hide Fits;
  }

  /** Until the table entry is written nothing of a write shows, and then all of
      it: the record reads as the tokens, every other as before. A crash between
      any two of the effects leaves the old record or the new one. */
  lemma WriteIsAtomic(d: Disk, rid: nat, tokens: seq<Token>)
    requires Sane(d)
    ensures var d1 := AppendData(d, tokens);
            var d2 := MoveEnd(d1, tokens);
            var grown := GrowTable(d2, rid);
            var d3 := WriteRecord(d, rid, tokens);
            && Sane(d1) && Sane(d2) && Sane(grown) && Sane(d3)
            && Point(grown, rid, d.end, tokens) == d3
            && (forall r: nat :: ReadRecord(d1, r) == ReadRecord(d, r))
            && (forall r: nat :: ReadRecord(d2, r) == ReadRecord(d, r))
            && (forall r: nat :: ReadRecord(grown, r) == ReadRecord(d, r))
            && (forall r: nat :: r != rid ==> ReadRecord(d3, r) == ReadRecord(d, r))
            && ReadRecord(d3, rid) == if tokens == [] then None else Some(Record(tokens, d.end, 5 * |tokens|))
  {
    var d1 := AppendData(d, tokens);
    var d2 := MoveEnd(d1, tokens);
    var d3 := WriteRecord(d, rid, tokens);
    AppendFacts(d, tokens);
    PackLength(tokens);
    GrowFacts(d2, rid, d.end, tokens);
    hide Pack, PutBytes, Fetch, Unpack, Fits, GrowTable;
    forall r: nat
      ensures ReadRecord(d1, r) == ReadRecord(d, r) && ReadRecord(d2, r) == ReadRecord(d, r)
      ensures r != rid ==> ReadRecord(d3, r) == ReadRecord(d, r)
    {
      EntryInside(d, r);
      FetchFrame(d, d1, EntryAt(d, r));
      FetchFrame(d, d2, EntryAt(d, r));
      FetchFrame(d, GrowTable(d2, rid), EntryAt(d, r));
      FetchFrame(d, d3, EntryAt(d, r));
    }
    WriteShows(d3, rid, d.end, tokens);
  }

  lemma WriteShows(d: Disk, rid: nat, off: nat, tokens: seq<Token>)
    requires HEADER <= off && off + |Pack(tokens)| <= |d.data|
    requires EntryAt(d, rid) == AllocEntry(off, 5 * |tokens|, Allocated)
    requires d.data[off..off + |Pack(tokens)|] == Pack(tokens)
    ensures ReadRecord(d, rid) == if tokens == [] then None else Some(Record(tokens, off, 5 * |tokens|))
  {
    if tokens != [] {
      FetchPacked(d, off, tokens);
    }
  }

  /** Deleting hides one record and no other. */
  lemma DeleteHides(d: Disk, rid: nat)
    requires Sane(d)
    ensures var d' := DeleteRecord(d, rid);
            && Sane(d') && ReadRecord(d', rid) == None
            && (forall r: nat :: r != rid ==> ReadRecord(d', r) == ReadRecord(d, r))
  {
    hide Fits, Unpack;
    var d' := DeleteRecord(d, rid);
    EntryInside(d, rid);
    forall r: nat | r != rid ensures ReadRecord(d', r) == ReadRecord(d, r) {
      EntryInside(d, r);
      FetchFrame(d, d', EntryAt(d, r));
    }
  }

  // ----- compaction -----

  /** The records with ids below n written afresh, in ascending order of id. */
  function Rewrite(d: Disk, n: nat): (r: Disk)
    ensures HEADER <= r.end == |r.data|
  {
    if n == 0 then EMPTY
    else
      var before := Rewrite(d, n - 1);
      var rec := ReadTokens(d, n - 1);
      if rec.None? then before
      else
        WriteRecord(before, n - 1, rec.value)
  }

  function Compacted(d: Disk): Disk {
    Rewrite(d, |d.alloc|)
  }

  lemma EmptySane()
    ensures Sane(EMPTY)
  {
    assert Pow2(8) > 0;
  }

  lemma ReadNonempty(d: Disk, rid: nat)
    requires Sane(d)
    ensures ReadTokens(d, rid).Some? ==> ReadTokens(d, rid).value != []
  {
    EntryInside(d, rid);
  }

  lemma RewriteStep(d: Disk, n: nat)
    requires n > 0
    ensures var before := Rewrite(d, n - 1);
            var rec := ReadTokens(d, n - 1);
            Rewrite(d, n) == if rec.None? then before else WriteRecord(before, n - 1, rec.value)
  {
    hide ReadTokens, WriteRecord;
  }

  lemma WriteTokens(d: Disk, rid: nat, tokens: seq<Token>)
    requires Sane(d) && tokens != []
    ensures Sane(WriteRecord(d, rid, tokens))
    ensures forall r: nat :: ReadTokens(WriteRecord(d, rid, tokens), r)
              == if r == rid then Some(tokens) else ReadTokens(d, r)
  {
    hide Sane, Pack, WriteRecord, ReadRecord;
    WriteIsAtomic(d, rid, tokens);
  }

  lemma RewriteNone(d: Disk)
    ensures Sane(Rewrite(d, 0)) && forall r: nat :: ReadTokens(Rewrite(d, 0), r) == None
  {
    EmptySane();
    assert Rewrite(d, 0) == EMPTY;
    forall r: nat ensures ReadTokens(EMPTY, r) == None {
      assert EntryAt(EMPTY, r) == NOTHING;
    }
  }

  lemma PastTable(d: Disk, r: nat)
    requires |d.alloc| <= r
    ensures ReadTokens(d, r) == None
  {
  }

  lemma {:induction false} RewriteReads(d: Disk, n: nat)
    requires Sane(d)
    ensures Sane(Rewrite(d, n))
    ensures forall r: nat :: ReadTokens(Rewrite(d, n), r) == if r < n then ReadTokens(d, r) else None
  {
    hide *;
    if n == 0 {
      RewriteNone(d);
    } else {
      RewriteReads(d, n - 1);
      RewriteStep(d, n);
      var rec := ReadTokens(d, n - 1);
      if rec.Some? {
        ReadNonempty(d, n - 1);
        WriteTokens(Rewrite(d, n - 1), n - 1, rec.value);
      }
    }
  }

  /** Every record reads after compaction as it did before. */
  lemma CompactKeeps(d: Disk)
    requires Sane(d)
    ensures Sane(Compacted(d))
    ensures forall r: nat :: ReadTokens(Compacted(d), r) == ReadTokens(d, r)
  {
    RewriteReads(d, |d.alloc|);
  }

  lemma {:induction false} RewriteSame(d: Disk, e: Disk, n: nat)
    requires forall r: nat :: ReadTokens(d, r) == ReadTokens(e, r)
    ensures Rewrite(d, n) == Rewrite(e, n)
  {
    hide ReadTokens, WriteRecord;
    if n > 0 {
      RewriteSame(d, e, n - 1);
    }
  }

  lemma {:induction false} RewriteMore(d: Disk, n: nat, m: nat)
    requires |d.alloc| <= n <= m
    ensures Rewrite(d, m) == Rewrite(d, n)
    decreases m - n
  {
    hide *;
    if n < m {
      PastTable(d, m - 1);
      RewriteMore(d, n, m - 1);
      RewriteStep(d, m);
    }
  }

  /** The compacted files, both of them, are a function of what can be read:
      whatever their histories, two grids that read alike compact to the same. */
  lemma CompactCanonical(d: Disk, e: Disk)
    requires forall r: nat :: ReadTokens(d, r) == ReadTokens(e, r)
    ensures Compacted(d) == Compacted(e)
  {
    hide ReadTokens, Rewrite;
    var m := |d.alloc| + |e.alloc|;
    RewriteMore(d, |d.alloc|, m);
    RewriteMore(e, |e.alloc|, m);
    RewriteSame(d, e, m);
  }

  /** Compacting twice is compacting once. */
  lemma CompactOnce(d: Disk)
    requires Sane(d)
    ensures Compacted(Compacted(d)) == Compacted(d)
  {
    CompactKeeps(d);
    CompactCanonical(Compacted(d), d);
  }

  /** The packed records below n, end to end. */
  function Blobs(d: Disk, n: nat): seq<nat> {
    if n == 0 then []
    else
      var rec := ReadTokens(d, n - 1);
      Blobs(d, n - 1) + (if rec.None? then [] else Pack(rec.value))
  }

  /** The compacted data region is the header and the survivors, without a gap. */
  lemma {:induction false} CompactDense(d: Disk, n: nat)
    ensures Rewrite(d, n).data == EMPTY.data + Blobs(d, n)
  {
    hide ReadTokens, Pack, WriteRecord;
    if n > 0 {
      CompactDense(d, n - 1);
      var rec := ReadTokens(d, n - 1);
      if rec.Some? {
        WrittenLast(Rewrite(d, n - 1), n - 1, rec.value);
      }
    }
  }

  lemma WrittenLast(d: Disk, rid: nat, tokens: seq<Token>)
    requires HEADER <= d.end == |d.data|
    ensures WriteRecord(d, rid, tokens).data == d.data + Pack(tokens)
  {
    hide Pack, SetEntry;
    assert PutBytes(d.data, d.end, Pack(tokens)) == d.data + Pack(tokens);
  }
}
