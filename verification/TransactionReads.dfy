/** What a reader gets of committed writes, and exactly when begin hands out all of
    them: for a commit let finish, for a crash between a COMMIT marker and its DIRTY
    record and for a crash inside a replay (python/griddb_transactions.py). */
module TransactionReads {
  import opened Lexicon
  import opened Transactions
  import opened TransactionSettles

  /** The last of the writes to record r. */
  function LastWrite(ws: seq<Write>, r: nat): Option<Write> {
    if ws == [] then None
    else if ws[|ws| - 1].rid == r then Some(ws[|ws| - 1])
    else LastWrite(ws[..|ws| - 1], r)
  }

  /** What record x.rid reads as once recovery has replayed x. */
  function AfterReplay(x: Write): Option<seq<Token>> {
    if x.tokens == [] || DeletesAtReplay(x) then None else Some(x.tokens)
  }

  /** What record x.rid reads as once commit has applied x. */
  function AfterCommit(x: Write): Option<seq<Token>> {
    if x.tokens == [] || DeletesAtCommit(x) then None else Some(x.tokens)
  }

  /** The one kind of logged record the two delete tests read differently. */
  predicate Odd(x: Write) {
    DeletesAtReplay(x) && !DeletesAtCommit(x)
  }

  // ----- the last write decides -----

  lemma {:induction false} LastWriteOf(ws: seq<Write>, r: nat)
    ensures LastWrite(ws, r).Some? <==> r in Touched(ws)
    ensures LastWrite(ws, r).Some? ==> LastWrite(ws, r).value in ws && LastWrite(ws, r).value.rid == r
  {
    if ws != [] {
      var n := |ws| - 1;
      LastWriteOf(ws[..n], r);
      assert ws == ws[..n] + [ws[n]];
    }
  }

  lemma {:induction false} LastWritePrepend(x: Write, ws: seq<Write>, r: nat)
    ensures LastWrite([x] + ws, r)
         == if LastWrite(ws, r).Some? then LastWrite(ws, r) else if x.rid == r then Some(x) else None
  {
    var n := |ws|;
    assert ([x] + ws)[..n] == (if n == 0 then [] else [x] + ws[..n - 1]);
    if n > 0 {
      LastWritePrepend(x, ws[..n - 1], r);
    } else {
      assert LastWrite([], r) == None;
    }
  }

  /** A replay leaves every record as its last write says, and an unwritten one alone. */
  lemma {:induction false} ReplayReads(ws: seq<Write>, s: Store, r: nat)
    ensures Read(Replay(ws, s), r)
         == if LastWrite(ws, r).Some? then AfterReplay(LastWrite(ws, r).value) else Read(s, r)
  {
    if ws != [] {
      ReplayReads(ws[1..], ReplayOne(ws[0], s), r);
      assert ws == [ws[0]] + ws[1..];
      LastWritePrepend(ws[0], ws[1..], r);
      hide LastWrite, Replay;
    }
  }

  lemma {:induction false} ApplyReads(ws: seq<Write>, s: Store, r: nat)
    ensures Read(ApplyAll(ws, s), r)
         == if LastWrite(ws, r).Some? then AfterCommit(LastWrite(ws, r).value) else Read(s, r)
  {
    if ws != [] {
      ApplyReads(ws[1..], CommitOne(ws[0], s), r);
      assert ws == [ws[0]] + ws[1..];
      LastWritePrepend(ws[0], ws[1..], r);
      hide LastWrite, ApplyAll;
    }
  }

  /** What recovery restores, record by record: the tokens of the last committed
      write to it, or nothing if that write is empty or three tokens from D0 on. */
  lemma FoldReads(history: seq<Txn>, base: Store, r: nat)
    ensures Read(Fold(history, base), r)
         == (var x := LastWrite(Writes(history), r);
             if x.None? then Read(base, r)
             else if x.value.tokens == [] || (|x.value.tokens| == 3 && x.value.tokens[0] == 0) then None
             else Some(x.value.tokens))
  {
    ReplayReads(Writes(history), base, r);
    hide Writes, LastWrite, Replay;
  }

  // ----- a commit let finish -----

  /** What a commit let finish shows, from any state at all: each record as its last
      pending write says, every other record as before. */
  lemma CommitReads(w: World, r: nat)
    requires w.phase.Open? && r != DIRTY_RID
    ensures var end := Settle(Next(w, Commit));
            Read(end.store, r)
            == (var x := LastWrite(w.phase.pending, r);
                if x.None? then Read(w.store, r)
                else if x.value.tokens == [] || DeletesAtCommit(x.value) then None
                else Some(x.value.tokens))
  {
    var dirty := GridWrite(w.store, DIRTY_RID, Marker(w.phase.id));
    SettleCommit(w);
    ApplyReads(w.phase.pending, dirty, r);
    DirtyFrame(w.store, Marker(w.phase.id));
    DirtyFrame(ApplyAll(w.phase.pending, dirty), []);
    hide Settle, Next, ApplyAll, LastWrite, GridWrite, GridDelete, Read, Marker;
  }

  /** A record put as a single number comes back from the commit unless the number
      is 0, whose record is the very one logged for a delete. */
  lemma ZeroVanishes(w: World, r: nat, n: int)
    requires w.phase.Open? && r != DIRTY_RID
    requires LastWrite(w.phase.pending, r) == Some(Write(r, EncodeInteger(n) + [RECORD]))
    ensures Read(Settle(Next(w, Commit)).store, r) == Some(EncodeInteger(n) + [RECORD]) <==> n != 0
    ensures n == 0 ==> Read(Settle(Next(w, Commit)).store, r) == None && EncodeInteger(n) + [RECORD] == TOMBSTONE
  {
    CommitReads(w, r);
    var x := Write(r, EncodeInteger(n) + [RECORD]);
    NumberDeletes(r, n);
    hide Settle, Next, LastWrite, EncodeInteger, DeletesAtCommit;
  }

  lemma NumberDeletes(r: nat, n: int)
    ensures DeletesAtCommit(Write(r, EncodeInteger(n) + [RECORD])) <==> n == 0
    ensures n == 0 ==> EncodeInteger(n) + [RECORD] == TOMBSTONE
    ensures EncodeInteger(n) + [RECORD] != []
  {
    var ds := Digits(Abs(n));
    var ts := SignDigits(ds, n < 0);
    assert EncodeInteger(n) == ts + [END];
    assert ts[0] == SignDigit(ds[0], n < 0);
    if |ts| == 1 {
      assert ds[1..] == [];
    }
  }

  function LastWriteIn(ws: seq<Write>, r: nat): (x: Write)
    requires r in Touched(ws)
    ensures LastWrite(ws, r) == Some(x)
  {
    LastWriteOf(ws, r);
    LastWrite(ws, r).value
  }

  lemma OpenRids(w: World, base: Store)
    requires Inv(w, base) && w.phase.Open?
    ensures DIRTY_RID !in Touched(w.phase.pending)
  {
  }

  lemma FoldPush(history: seq<Txn>, t: Txn, base: Store)
    ensures Fold(history + [t], base) == Replay(t.writes, Fold(history, base))
  {
    WritesPush(history, t);
    ReplayAppend(Writes(history), t.writes, base);
  }

  lemma OddShows(x: Write)
    ensures AfterCommit(x) == AfterReplay(x) <==> !Odd(x)
  {
  }

  /** Record r reads right at the end of a commit: if it is written, the two delete
      tests agree on its last write; if not, it read right before. */
  ghost predicate RightAtCommit(w: World, base: Store, r: nat)
    requires w.phase.Open?
  {
    if r in Touched(w.phase.pending) then !Odd(LastWriteIn(w.phase.pending, r))
    else Read(w.store, r) == Read(Fold(w.history, base), r)
  }

  /** From any state at all, a commit let finish leaves a grid that reads as all the
      committed transactions, itself included, exactly when every record it writes is
      last written by anything but three tokens from D0 to something other than
      RECORD, and every other record read right already. */
  lemma CommitExact(w: World, base: Store)
    requires w.phase.Open?
    ensures var end := Settle(Next(w, Commit));
            Alike(end.store, Fold(end.history, base), {})
            <==> forall r: nat :: r != DIRTY_RID ==> RightAtCommit(w, base, r)
  {
    var end := Settle(Next(w, Commit));
    SettleCommit(w);
    FoldPush(w.history, Txn(w.phase.id, w.phase.pending), base);
    hide Settle, Next, Fold, Replay, Read, RightAtCommit, ApplyAll;
    forall r: nat | r != DIRTY_RID
      ensures Read(end.store, r) == Read(Fold(end.history, base), r) <==> RightAtCommit(w, base, r)
    {
      CommitRecord(w, base, r);
    }
  }

  lemma CommitRecord(w: World, base: Store, r: nat)
    requires w.phase.Open? && r != DIRTY_RID
    ensures Read(Settle(Next(w, Commit)).store, r) == Read(Replay(w.phase.pending, Fold(w.history, base)), r)
        <==> RightAtCommit(w, base, r)
  {
    var ws := w.phase.pending;
    CommitReads(w, r);
    ReplayReads(ws, Fold(w.history, base), r);
    LastWriteOf(ws, r);
    if r in Touched(ws) {
      OddShows(LastWriteIn(ws, r));
    }
    hide Settle, Next, Fold, Replay, Read, LastWrite, Touched, Odd, DeletesAtCommit, DeletesAtReplay;
  }

  /** From a grid that was right: exactly when no record it writes is last written by
      the one kind of record the two delete tests read differently. */
  lemma CommitFromSettled(base: Store, events: seq<Event>)
    requires Clean(base)
    requires var w := Run(Fresh(base), events); w.phase.Open? && Alike(w.store, Fold(w.history, base), {})
    ensures var w := Run(Fresh(base), events);
            var end := Settle(Next(w, Commit));
            Alike(end.store, Fold(end.history, base), {})
            <==> forall r :: r in Touched(w.phase.pending) ==> !Odd(LastWriteIn(w.phase.pending, r))
  {
    var w := Run(Fresh(base), events);
    EveryRun(base, events);
    OpenRids(w, base);
    CommitExact(w, base);
    hide Run, Fresh, Inv, Settle, Next, Fold, LastWriteIn, Touched, Odd, Read, RightAtCommit;
    forall r: nat | r != DIRTY_RID
      ensures RightAtCommit(w, base, r)
          <==> (r in Touched(w.phase.pending) ==> !Odd(LastWriteIn(w.phase.pending, r)))
    {
      SettledAtCommit(w, base, r);
    }
  }

  lemma SettledAtCommit(w: World, base: Store, r: nat)
    requires w.phase.Open? && r != DIRTY_RID && Alike(w.store, Fold(w.history, base), {})
    ensures RightAtCommit(w, base, r)
        <==> (r in Touched(w.phase.pending) ==> !Odd(LastWriteIn(w.phase.pending, r)))
  {
    hide Fold, LastWriteIn, Touched, Odd, Read;
  }

  // ----- a crash between a COMMIT marker and its DIRTY record -----

  lemma MarkingRids(w: World, base: Store)
    requires Inv(w, base) && w.phase.Marking?
    ensures DIRTY_RID !in Touched(w.phase.pending) && Clean(w.store)
    ensures w.history != [] && Fold(w.history, base) == Replay(w.phase.pending, Fold(Earlier(w.history), base))
    ensures Trusted(w) ==> Alike(w.store, Fold(Earlier(w.history), base), {})
  {
    assert Last(w.history) in w.history;
    HistoryRids(w);
    FoldLast(w.history, base);
    hide LogTells, Alike, AllPlain, Fold, Replay;
  }

  lemma CrashBegins(w: World, id: nat)
    requires Clean(w.store) && id !in Ids(w.log)
    ensures var v := Next(Next(w, Crash), Begin(id));
            v.phase == Open(id, []) && v.store == w.store && v.history == w.history
  {
    CleanTorn(w.store);
    hide TornId, Clean, Ids;
  }

  /** What record r should read as once the transaction whose commit the crash hit
      counts as committed. */
  ghost function AfterMarked(w: World, base: Store, r: nat): Option<seq<Token>>
    requires w.phase.Marking? && w.history != []
  {
    if r in Touched(w.phase.pending) then AfterReplay(LastWriteIn(w.phase.pending, r))
    else Read(Fold(Earlier(w.history), base), r)
  }

  /** After a crash in that window, whatever came before, the next begin hands out the
      transaction on a grid that reads as the committed ones exactly when every record
      already reads as the last of them, the one the crash hit, would leave it. */
  lemma WindowExact(base: Store, events: seq<Event>, id: nat)
    requires Clean(base)
    requires var w := Run(Fresh(base), events); w.phase.Marking? && id !in Ids(w.log)
    ensures var w := Run(Fresh(base), events);
            var v := Next(Next(w, Crash), Begin(id));
            && v.phase == Open(id, []) && v.history == w.history && w.history != []
            && (Alike(v.store, Fold(v.history, base), {})
                <==> forall r: nat :: r != DIRTY_RID ==> Read(w.store, r) == AfterMarked(w, base, r))
  {
    var w := Run(Fresh(base), events);
    EveryRun(base, events);
    MarkingRids(w, base);
    CrashBegins(w, id);
    hide Run, Fresh, Inv, Settle, Next, Fold, Replay, Read, AfterMarked;
    forall r: nat ensures Read(Fold(w.history, base), r) == AfterMarked(w, base, r) {
      MarkedReads(w, base, r);
    }
  }

  lemma MarkedReads(w: World, base: Store, r: nat)
    requires w.phase.Marking? && w.history != []
    ensures Read(Replay(w.phase.pending, Fold(Earlier(w.history), base)), r) == AfterMarked(w, base, r)
  {
    ReplayReads(w.phase.pending, Fold(Earlier(w.history), base), r);
    LastWriteOf(w.phase.pending, r);
    hide Replay, Fold, Read, LastWrite, Touched, AfterReplay;
  }

  /** From a grid that read right before that commit: exactly when the transaction
      changes nothing that can be read. */
  lemma WindowFromSettled(base: Store, events: seq<Event>, id: nat)
    requires Clean(base)
    requires var w := Run(Fresh(base), events); w.phase.Marking? && id !in Ids(w.log)
    requires var w := Run(Fresh(base), events); w.history != [] && Alike(w.store, Fold(Earlier(w.history), base), {})
    ensures var w := Run(Fresh(base), events);
            var v := Next(Next(w, Crash), Begin(id));
            && v.phase == Open(id, []) && v.history == w.history
            && (Alike(v.store, Fold(v.history, base), {})
                <==> Alike(Fold(Earlier(v.history), base), Fold(v.history, base), {}))
            && (Alike(v.store, Fold(v.history, base), {})
                <==> forall r :: r in Touched(w.phase.pending) ==>
                       Read(w.store, r) == AfterReplay(LastWriteIn(w.phase.pending, r)))
  {
    var w := Run(Fresh(base), events);
    EveryRun(base, events);
    MarkingRids(w, base);
    WindowExact(base, events, id);
    CrashBegins(w, id);
    hide Run, Fresh, Inv, Next, Fold, Replay, Read, Touched, AfterReplay, LastWriteIn;
  }

  // ----- a crash inside a replay of the log -----

  function Ticks(n: nat): seq<Event> {
    if n == 0 then [] else [Tick] + Ticks(n - 1)
  }

  /** The first n effects of a recovery replay the first n writes. */
  lemma {:induction false} Replays(w: World, n: nat)
    requires w.phase.Recovering? && n <= |w.phase.todo|
    ensures Run(w, Ticks(n))
         == w.(store := Replay(w.phase.todo[..n], w.store), phase := Recovering(w.phase.todo[n..]))
    decreases n
  {
    var todo := w.phase.todo;
    if n > 0 {
      var w' := Next(w, Tick);
      assert w' == w.(store := ReplayOne(todo[0], w.store), phase := Recovering(todo[1..]));
      assert Ticks(n)[1..] == Ticks(n - 1);
      Replays(w', n - 1);
      assert todo[1..][..n - 1] == todo[..n][1..] && todo[1..][n - 1..] == todo[n..];
      hide Next, ReplayOne;
    } else {
      assert todo[..0] == [] && todo[0..] == todo;
    }
  }

  /** A recovery cut short after n writes, and the next begin. */
  function CutShort(w: World, n: nat, id: nat): World {
    Settle(Next(Next(Run(Next(w, Recover), Ticks(n)), Crash), Begin(id)))
  }

  /** Record r is right after n replayed writes: finishing a torn transaction writes
      it once more; or the last replayed write to it shows what the last committed
      one does; or none was replayed and it was right before. */
  ghost predicate RightAfter(w: World, base: Store, n: nat, r: nat)
    requires n <= |Writes(w.history)|
  {
    var ws := Writes(w.history);
    || (!Clean(w.store) && w.history != [] && r in Touched(Last(w.history).writes))
    || (if r in Touched(ws[..n]) then
          r in Touched(ws) && AfterReplay(LastWriteIn(ws[..n], r)) == AfterReplay(LastWriteIn(ws, r))
        else
          Read(w.store, r) == Read(Fold(w.history, base), r))
  }

  lemma RecoverStarts(w: World, base: Store)
    requires Inv(w, base) && w.phase.Idle?
    ensures Next(w, Recover) == w.(phase := Recovering(Writes(w.history)))
    ensures DIRTY_RID !in Touched(Writes(w.history))
    ensures w.history != [] ==> DIRTY_RID !in Touched(Last(w.history).writes)
  {
    HistoryRids(w);
    if w.history != [] {
      assert Last(w.history) in w.history;
    }
    hide Writes, Select, Alike, Read;
  }

  /** Looking for a torn transaction after the crash. */
  lemma BeginsAfter(w: World, s: Store, base: Store, stale: bool, id: nat)
    requires Inv(w, base) && id !in Ids(w.log) && Read(s, DIRTY_RID) == Read(w.store, DIRTY_RID)
    ensures var v := Settle(Next(World(w.log, s, Idle, w.history, stale), Begin(id)));
            && v.phase == Open(id, []) && v.history == w.history
            && (!Clean(w.store) ==> w.history != [])
            && v.store == if Clean(w.store) then s else GridDelete(Replay(Last(w.history).writes, s), DIRTY_RID)
  {
    var v0 := World(w.log, s, Idle, w.history, stale);
    SameTorn(s, w.store);
    if Clean(w.store) {
      CleanTorn(w.store);
      hide Inv, TornId, Clean, Read;
      assert Next(v0, Begin(id)) == v0.(phase := Open(id, []));
    } else {
      var last := Last(w.history);
      TornNamed(w.store, last.id);
      assert Select(w.log, {last.id}) == last.writes;
      hide Inv, TornId, Clean, Read, Select, DirtyNames, Replay;
      var v1 := v0.(phase := Finishing(last.writes, Some(id)));
      assert Next(v0, Begin(id)) == v1;
      SettleFinishing(v1);
    }
  }

  lemma SameTorn(s: Store, t: Store)
    requires Read(s, DIRTY_RID) == Read(t, DIRTY_RID)
    ensures TornId(s) == TornId(t)
  {
  }

  lemma ReplayedWorld(w: World, base: Store, n: nat)
    requires Inv(w, base) && w.phase.Idle? && n <= |Writes(w.history)|
    ensures var ws := Writes(w.history);
            var s := Replay(ws[..n], w.store);
            && Run(Next(w, Recover), Ticks(n)) == World(w.log, s, Recovering(ws[n..]), w.history, w.stale)
            && Read(s, DIRTY_RID) == Read(w.store, DIRTY_RID)
  {
    var ws := Writes(w.history);
    RecoverStarts(w, base);
    hide Inv, Writes, Next, Run, Ticks, Replay, Read;
    assert DIRTY_RID !in Touched(ws[..n]) by {
      assert ws == ws[..n] + ws[n..];
    }
    LastWriteOf(ws[..n], DIRTY_RID);
    hide LastWrite, Touched;
    ReplayReads(ws[..n], w.store, DIRTY_RID);
    Replays(w.(phase := Recovering(ws)), n);
  }

  lemma CrashWorld(w: World)
    requires w.phase.Recovering?
    ensures Next(w, Crash) == World(w.log, w.store, Idle, w.history, true)
  {
  }

  lemma CutShortIs(w: World, n: nat, id: nat)
    ensures CutShort(w, n, id) == Settle(Next(Next(Run(Next(w, Recover), Ticks(n)), Crash), Begin(id)))
  {
  }

  lemma CutShortReads(w: World, base: Store, n: nat, id: nat)
    requires Inv(w, base) && w.phase.Idle? && id !in Ids(w.log) && n <= |Writes(w.history)|
    ensures var v := CutShort(w, n, id);
            && v.phase == Open(id, []) && v.history == w.history && (!Clean(w.store) ==> w.history != [])
            && v.store == (var s := Replay(Writes(w.history)[..n], w.store);
                           if Clean(w.store) then s else GridDelete(Replay(Last(w.history).writes, s), DIRTY_RID))
  {
    hide *;
    var ws := Writes(w.history);
    var s := Replay(ws[..n], w.store);
    ReplayedWorld(w, base, n);
    CrashWorld(World(w.log, s, Recovering(ws[n..]), w.history, w.stale));
    BeginsAfter(w, s, base, true, id);
    CutShortIs(w, n, id);
  }

  /** However a recovery is cut short, and whatever crashes came before it, the next
      begin hands out the transaction on a grid that reads as the committed ones
      exactly when every record is right after the writes that were replayed. */
  lemma CutShortExact(base: Store, events: seq<Event>, n: nat, id: nat)
    requires Clean(base)
    requires var w := Run(Fresh(base), events);
             w.phase.Idle? && id !in Ids(w.log) && n <= |Writes(w.history)|
    ensures var w := Run(Fresh(base), events);
            var v := CutShort(w, n, id);
            && v.phase == Open(id, []) && v.history == w.history
            && (Alike(v.store, Fold(v.history, base), {})
                <==> forall r: nat :: r != DIRTY_RID ==> RightAfter(w, base, n, r))
  {
    var w := Run(Fresh(base), events);
    EveryRun(base, events);
    CutShortReads(w, base, n, id);
    hide Run, Fresh, Inv, CutShort, RightAfter, Read, Clean, Fold, Replay, Writes;
    forall r: nat | r != DIRTY_RID
      ensures Read(CutShort(w, n, id).store, r) == Read(Fold(w.history, base), r) <==> RightAfter(w, base, n, r)
    {
      RightReads(w, base, n, r);
    }
  }

  lemma RightReads(w: World, base: Store, n: nat, r: nat)
    requires n <= |Writes(w.history)| && r != DIRTY_RID && (!Clean(w.store) ==> w.history != [])
    ensures var s := Replay(Writes(w.history)[..n], w.store);
            var t := if Clean(w.store) then s else GridDelete(Replay(Last(w.history).writes, s), DIRTY_RID);
            Read(t, r) == Read(Fold(w.history, base), r) <==> RightAfter(w, base, n, r)
  {
    hide Replay, Writes, LastWrite, Touched, Read, Clean, AfterReplay, GridDelete;
    var ws := Writes(w.history);
    var s := Replay(ws[..n], w.store);
    ReplayReads(ws[..n], w.store, r);
    ReplayReads(ws, base, r);
    LastWriteOf(ws[..n], r);
    LastWriteOf(ws, r);
    PrefixTouched(ws, n);
    if !Clean(w.store) {
      var last := Last(w.history);
      FoldLast(w.history, base);
      ReplayReads(last.writes, s, r);
      ReplayReads(last.writes, Fold(Earlier(w.history), base), r);
      LastWriteOf(last.writes, r);
      DirtyFrame(Replay(last.writes, s), []);
    }
  }

  /** From a grid that reads right: begin sees it right again exactly when each record
      that was replayed shows after its last replayed write what it shows after its
      last committed one. */
  lemma CutShortFromSettled(base: Store, events: seq<Event>, n: nat, id: nat)
    requires Clean(base)
    requires var w := Run(Fresh(base), events);
             && w.phase.Idle? && id !in Ids(w.log) && n <= |Writes(w.history)|
             && Clean(w.store) && Alike(w.store, Fold(w.history, base), {})
    ensures var w := Run(Fresh(base), events);
            var v := CutShort(w, n, id);
            var ws := Writes(w.history);
            && v.phase == Open(id, []) && Touched(ws[..n]) <= Touched(ws)
            && (Alike(v.store, Fold(v.history, base), {})
                <==> forall r :: r in Touched(ws[..n]) ==>
                       AfterReplay(LastWriteIn(ws[..n], r)) == AfterReplay(LastWriteIn(ws, r)))
  {
    var w := Run(Fresh(base), events);
    var ws := Writes(w.history);
    EveryRun(base, events);
    RecoverStarts(w, base);
    CutShortExact(base, events, n, id);
    PrefixTouched(ws, n);
    hide Run, Fresh, Inv, CutShort, RightAfter, Read, Clean, Alike, Fold, Writes, AfterReplay, LastWriteIn, Touched;
    forall r: nat | r != DIRTY_RID
      ensures RightAfter(w, base, n, r)
          <==> (r in Touched(ws[..n]) ==> AfterReplay(LastWriteIn(ws[..n], r)) == AfterReplay(LastWriteIn(ws, r)))
    {
      RightSettled(w, base, n, r);
    }
  }

  lemma PrefixTouched(ws: seq<Write>, n: nat)
    requires n <= |ws|
    ensures Touched(ws[..n]) <= Touched(ws)
  {
    assert ws == ws[..n] + ws[n..];
  }

  lemma RightSettled(w: World, base: Store, n: nat, r: nat)
    requires n <= |Writes(w.history)| && r != DIRTY_RID && Clean(w.store)
    requires Alike(w.store, Fold(w.history, base), {})
    requires Touched(Writes(w.history)[..n]) <= Touched(Writes(w.history))
    ensures var ws := Writes(w.history);
            RightAfter(w, base, n, r)
            <==> (r in Touched(ws[..n]) ==> AfterReplay(LastWriteIn(ws[..n], r)) == AfterReplay(LastWriteIn(ws, r)))
  {
    hide Read, Clean, Fold, Writes, AfterReplay, LastWriteIn, Touched;
  }

  /** No point of a recovery is a bad one to crash at exactly when every committed
      write to a record shows what the last one to it does. */
  lemma CutShortSafe(base: Store, events: seq<Event>, id: nat)
    requires Clean(base)
    requires var w := Run(Fresh(base), events);
             && w.phase.Idle? && id !in Ids(w.log) && Clean(w.store) && Alike(w.store, Fold(w.history, base), {})
    ensures var w := Run(Fresh(base), events);
            var ws := Writes(w.history);
            (forall n: nat :: n <= |ws| ==> Alike(CutShort(w, n, id).store, Fold(w.history, base), {}))
            <==> (forall x :: x in ws ==> AfterReplay(x) == AfterReplay(LastWriteIn(ws, x.rid)))
  {
    var w := Run(Fresh(base), events);
    var ws := Writes(w.history);
    forall n: nat | n <= |ws| ensures CutShort(w, n, id).history == w.history {
      CutShortExact(base, events, n, id);
    }
    hide Run, Fresh, Inv, CutShort, Read, Clean, Alike, Fold, Writes, AfterReplay, LastWriteIn, Touched;
    forall n: nat | n <= |ws|
      ensures Touched(ws[..n]) <= Touched(ws)
      ensures Alike(CutShort(w, n, id).store, Fold(w.history, base), {})
          <==> forall r :: r in Touched(ws[..n]) ==>
                 AfterReplay(LastWriteIn(ws[..n], r)) == AfterReplay(LastWriteIn(ws, r))
    {
      CutShortFromSettled(base, events, n, id);
    }
    PrefixesAgree(ws);
  }

  /** Every prefix leaves each of its records as the whole does exactly when every
      single write does. */
  lemma PrefixesAgree(ws: seq<Write>)
    requires forall n: nat :: n <= |ws| ==> Touched(ws[..n]) <= Touched(ws)
    ensures (forall n: nat, r :: n <= |ws| && r in Touched(ws[..n]) ==>
               AfterReplay(LastWriteIn(ws[..n], r)) == AfterReplay(LastWriteIn(ws, r)))
        <==> (forall x :: x in ws ==> AfterReplay(x) == AfterReplay(LastWriteIn(ws, x.rid)))
  {
    hide AfterReplay, LastWriteIn;
    if forall n: nat, r :: n <= |ws| && r in Touched(ws[..n]) ==>
         AfterReplay(LastWriteIn(ws[..n], r)) == AfterReplay(LastWriteIn(ws, r)) {
      forall x | x in ws ensures AfterReplay(x) == AfterReplay(LastWriteIn(ws, x.rid)) {
        var i :| 0 <= i < |ws| && ws[i] == x;
        LastOfPrefix(ws, i);
      }
    }
    if forall x :: x in ws ==> AfterReplay(x) == AfterReplay(LastWriteIn(ws, x.rid)) {
      forall n: nat, r | n <= |ws| && r in Touched(ws[..n])
        ensures AfterReplay(LastWriteIn(ws[..n], r)) == AfterReplay(LastWriteIn(ws, r))
      {
        LastWriteOf(ws[..n], r);
        assert LastWriteIn(ws[..n], r) in ws;
      }
    }
  }

  lemma LastOfPrefix(ws: seq<Write>, i: nat)
    requires i < |ws|
    ensures ws[i].rid in Touched(ws[..i + 1]) && LastWriteIn(ws[..i + 1], ws[i].rid) == ws[i]
  {
    var init := ws[..i + 1];
    assert init[i] == ws[i] && init[|init| - 1] == ws[i] && ws[i] in init;
  }
}
