/** The AllocGrid object: its two files, the re-entrant lock and the read cache
    (python/griddb_alloc.py). */
module AllocGrids {
  import opened Lexicon
  import opened Packing
  import opened AllocDisk

  class AllocGrid {
    /** The files. */
    var data: seq<nat>
    var header: nat
    var alloc: seq<AllocEntry>
    /** Memory. */
    var dataEnd: nat
    var lockDepth: int
    var flocked: bool
    var cache: seq<(nat, Record)>
    const cacheSize: nat

    ghost function State(): Disk
      reads this
    {
      Disk(data, header, alloc)
    }

    /** The file lock is held exactly while the depth is positive, and what the
        cache holds is what the files hold. */
    ghost predicate Valid()
      reads this
    {
      && Sane(State())
      && (flocked <==> lockDepth > 0)
      && |cache| <= cacheSize
      && forall i :: 0 <= i < |cache| ==> ReadRecord(State(), cache[i].0) == Some(cache[i].1)
    }

    constructor (cacheSize: nat)
      ensures Valid() && State() == EMPTY && this.cacheSize == cacheSize && lockDepth == 0
    {
      data, header, alloc := EMPTY.data, EMPTY.end, [];
      dataEnd, lockDepth, flocked, cache := HEADER, 0, false, [];
      this.cacheSize := cacheSize;
      EmptySane();
    }

    method Acquire()
      modifies this`lockDepth, this`flocked
      ensures lockDepth == (if old(lockDepth) > 0 then old(lockDepth) + 1 else 1)
      ensures flocked == (old(flocked) || old(lockDepth) <= 0)
    {
      if lockDepth > 0 {
        lockDepth := lockDepth + 1;
        return;
      }
      flocked := true;
      lockDepth := 1;
    }

    method Release()
      modifies this`lockDepth, this`flocked
      ensures lockDepth == old(lockDepth) - 1
      ensures flocked == (old(flocked) && lockDepth > 0)
    {
      lockDepth := lockDepth - 1;
      if lockDepth > 0 {
        return;
      }
      flocked := false;
    }

    method ReadAllocEntry(rid: nat) returns (e: AllocEntry)
      ensures e == EntryAt(State(), rid)
    {
      if rid >= |alloc| {
        return NOTHING;
      }
      return alloc[rid];
    }

    method WriteAllocEntry(rid: nat, e: AllocEntry)
      modifies this`alloc
      ensures alloc == SetEntry(old(alloc), rid, e)
    {
      if |alloc| <= rid {
        alloc := alloc + seq(rid + 1 - |alloc|, i => NOTHING);
      }
      alloc := alloc[rid := e];
      assert alloc == SetEntry(old(alloc), rid, e);
    }

    method Invalidate(rid: nat)
      modifies this`cache
      ensures |cache| <= |old(cache)|
      ensures forall c :: c in cache ==> c in old(cache) && c.0 != rid
    {
      var kept, i := [], 0;
      while i < |cache|
        invariant i <= |cache| && |kept| <= i
        invariant forall c :: c in kept ==> c in cache && c.0 != rid
      {
        if cache[i].0 != rid {
          kept := kept + [cache[i]];
        }
        i := i + 1;
      }
      cache := kept;
    }

    /** Appends the tokens and points the record at them. A lock already held is
        still held afterwards. */
    method Write(rid: nat, tokens: seq<Token>) returns (off: nat)
      requires Valid()
      modifies this
      ensures Valid() && off == old(header)
      ensures State() == WriteRecord(old(State()), rid, tokens)
      ensures lockDepth == (if old(lockDepth) > 0 then old(lockDepth) else 0)
      ensures old(flocked) ==> flocked
    {
      hide Sane, ReadRecord, WriteRecord;
      ghost var before := State();
      WriteIsAtomic(before, rid, tokens);
      Acquire();
      off := AppendAndPoint(rid, tokens);
      if cacheSize > 0 {
        Invalidate(rid);
      }
      CacheKept(before, State(), old(cache), cache, rid);
      Release();
    }

    /** The three disk effects. */
    method AppendAndPoint(rid: nat, tokens: seq<Token>) returns (off: nat)
      modifies this`data, this`header, this`alloc, this`dataEnd
      ensures off == old(header) && State() == WriteRecord(old(State()), rid, tokens)
    {
      hide Pack, PutBytes;
      dataEnd := header;
      off := dataEnd;
      var packed := Pack(tokens);
      data := PutBytes(data, off, packed);
      dataEnd := off + |packed|;
      header := dataEnd;
      WriteAllocEntry(rid, AllocEntry(off, 5 * |tokens|, Allocated));
    }

    /** Compare and swap: writes only when the record still is where the caller read it. */
    method WriteIf(rid: nat, tokens: seq<Token>, expectedOff: nat, expectedBits: nat) returns (ok: bool)
      requires Valid()
      modifies this
      ensures Valid()
      ensures ok == (EntryAt(old(State()), rid).off == expectedOff && EntryAt(old(State()), rid).bits == expectedBits)
      ensures State() == if ok then WriteRecord(old(State()), rid, tokens) else old(State())
      ensures lockDepth == (if old(lockDepth) > 0 then old(lockDepth) else 0)
      ensures old(flocked) ==> flocked
    {
      Acquire();
      var current := ReadAllocEntry(rid);
      if current.off != expectedOff || current.bits != expectedBits {
        Release();
        return false;
      }
      var at := Write(rid, tokens);
      assert flocked;
      Release();
      return true;
    }

    /** What the files say, from the cache when it is there. */
    method Read(rid: nat) returns (r: Option<Record>)
      requires Valid()
      modifies this`cache
      ensures Valid() && r == ReadRecord(State(), rid)
    {
      hide Sane, Fetch, EntryAt;
      if cacheSize > 0 {
        var i := 0;
        while i < |cache|
          invariant i <= |cache|
        {
          if cache[i].0 == rid {
            var hit := cache[i];
            cache := cache[..i] + cache[i + 1..] + [hit];
            return Some(hit.1);
          }
          i := i + 1;
        }
      }
      var entry := ReadAllocEntry(rid);
      r := FetchEntry(entry);
      if r.Some? && cacheSize > 0 {
        if |cache| >= cacheSize {
          cache := cache[1..];
        }
        cache := cache + [(rid, r.value)];
      }
    }

    method FetchEntry(entry: AllocEntry) returns (r: Option<Record>)
      ensures r == Fetch(State(), entry)
    {
      if IsFree(entry) || entry.flag == Dead {
        return None;
      }
      var raw := Raw(data, entry.off, ByteLength(entry.bits));
      if raw == [] || 8 * |raw| < 5 * (entry.bits / 5) {
        return None;
      }
      return Some(Record(UnpackTokens(raw, entry.bits / 5), entry.off, entry.bits));
    }

    method Delete(rid: nat) returns (found: bool)
      requires Valid()
      modifies this
      ensures Valid() && State() == DeleteRecord(old(State()), rid)
      ensures found == !IsFree(EntryAt(old(State()), rid))
      ensures lockDepth == old(lockDepth)
    {
      DeleteHides(State(), rid);
      var entry := ReadAllocEntry(rid);
      if IsFree(entry) {
        return false;
      }
      WriteAllocEntry(rid, entry.(flag := Dead));
      if cacheSize > 0 {
        Invalidate(rid);
      }
      assert State() == DeleteRecord(old(State()), rid);
      hide Sane, DeleteRecord, ReadRecord;
      CacheKept(old(State()), State(), old(cache), cache, rid);
      return true;
    }

    /** One live record written to another grid. */
    method CopyTo(target: AllocGrid, rid: nat)
      requires Valid() && target.Valid() && target != this
      modifies target, this`cache
      ensures Valid() && target.Valid()
      ensures var rec := ReadTokens(State(), rid);
              target.State() ==
                if rec.None? then old(target.State()) else WriteRecord(old(target.State()), rid, rec.value)
    {
      hide WriteRecord, Sane, ReadRecord;
      var rec := Read(rid);
      if rec.Some? {
        var at := target.Write(rid, rec.value.tokens);
      }
    }

    /** Rewrites the live records into fresh files and takes those over. Closing
        gives back one level of the lock, held or not. The cache stays as it is:
        its tokens are still right, its offsets only where nothing moved. */
    method Compact()
      requires Valid()
      modifies this
      ensures State() == Compacted(old(State())) && Sane(State())
      ensures lockDepth == old(lockDepth) - 1
      ensures forall i :: 0 <= i < |cache| ==> ReadTokens(State(), cache[i].0) == Some(cache[i].1.tokens)
      ensures Valid() <==> forall i :: 0 <= i < |cache| ==> EntryAt(State(), cache[i].0).off == cache[i].1.off
    {
      hide Compacted, Sane, ReadRecord, ReadTokens, EntryAt;
      ghost var before := State();
      CompactKeeps(before);
      var target := Rebuilt();
      Release();
      data, header, alloc := target.data, target.header, target.alloc;
      dataEnd := header;
      assert State() == target.State();
      SameCache(before, State(), cache);
    }

    /** The live records, written one after the other into fresh files. */
    method Rebuilt() returns (target: AllocGrid)
      requires Valid()
      modifies this`cache
      ensures Valid() && fresh(target) && target.Valid() && target.State() == Compacted(State())
    {
      ghost var before := State();
      assert Compacted(before) == Rewrite(before, |before.alloc|) && Rewrite(before, 0) == EMPTY;
      hide Rewrite, Compacted, WriteRecord, Sane, ReadRecord, ReadTokens;
      target := new AllocGrid(0);
      var rid := 0;
      while rid < |alloc|
        invariant rid <= |alloc| && State() == before && Valid() && target.Valid()
        invariant target != this && target.State() == Rewrite(before, rid)
        invariant fresh(target)
        modifies target, this`cache
      {
        RewriteStep(before, rid + 1);
        CopyTo(target, rid);
        rid := rid + 1;
      }
    }
  }

  lemma SameCache(d: Disk, d': Disk, cache: seq<(nat, Record)>)
    requires Sane(d) && Sane(d') && (forall rid: nat :: ReadTokens(d', rid) == ReadTokens(d, rid))
    requires forall i :: 0 <= i < |cache| ==> ReadRecord(d, cache[i].0) == Some(cache[i].1)
    ensures forall i :: 0 <= i < |cache| ==> ReadTokens(d', cache[i].0) == Some(cache[i].1.tokens)
    ensures forall i :: 0 <= i < |cache| ==>
              (ReadRecord(d', cache[i].0) == Some(cache[i].1) <==> EntryAt(d', cache[i].0).off == cache[i].1.off)
  {
    hide Sane, ReadTokens, ReadRecord, EntryAt;
    forall i | 0 <= i < |cache|
      ensures ReadTokens(d', cache[i].0) == Some(cache[i].1.tokens)
      ensures ReadRecord(d', cache[i].0) == Some(cache[i].1) <==> EntryAt(d', cache[i].0).off == cache[i].1.off
    {
      SameTokens(d, d', cache[i].0, cache[i].1);
    }
  }

  /** Two records with the same tokens differ in their offsets or not at all. */
  lemma SameTokens(d: Disk, d': Disk, rid: nat, rec: Record)
    requires Sane(d) && Sane(d') && ReadRecord(d, rid) == Some(rec) && ReadTokens(d', rid) == ReadTokens(d, rid)
    ensures ReadTokens(d', rid) == Some(rec.tokens)
    ensures ReadRecord(d', rid) == Some(rec) <==> EntryAt(d', rid).off == rec.off
  {
    RecordShape(d, rid);
    RecordShape(d', rid);
    hide ReadRecord, Sane, EntryAt;
  }

  lemma RecordShape(d: Disk, rid: nat)
    requires Sane(d)
    ensures var r := ReadRecord(d, rid);
            r.Some? ==> r.value.off == EntryAt(d, rid).off && r.value.bits == 5 * |r.value.tokens|
  {
    EntryInside(d, rid);
    hide Sane, Unpack, Raw;
  }

  /** A cache rid was dropped from still holds what the files hold. */
  lemma CacheKept(d: Disk, d': Disk, cache: seq<(nat, Record)>, cache': seq<(nat, Record)>, rid: nat)
    requires forall r: nat :: r != rid ==> ReadRecord(d', r) == ReadRecord(d, r)
    requires forall i :: 0 <= i < |cache| ==> ReadRecord(d, cache[i].0) == Some(cache[i].1)
    requires forall c :: c in cache' ==> c in cache && c.0 != rid
    ensures forall i :: 0 <= i < |cache'| ==> ReadRecord(d', cache'[i].0) == Some(cache'[i].1)
  {
    forall i | 0 <= i < |cache'| ensures ReadRecord(d', cache'[i].0) == Some(cache'[i].1) {
      assert cache'[i] in cache';
      var j :| 0 <= j < |cache| && cache[j] == cache'[i];
    }
  }
}
