/** Multi-write transactions over a write-ahead log, as a state machine whose
    steps are single disk effects (python/griddb_transactions.py). A crash may
    fall between any two steps, in a recovery too, and other processes go on
    using the grid after it. The lock is held from begin to commit or rollback
    and throughout a recovery, so at most one process is ever inside; its
    volatile state is the phase. */
module Transactions {
  import opened Lexicon
  import TokenParser

  const DIRTY_RID: nat := 99_999_999

  // ----- the grid and the log -----

  datatype Cell = Live(tokens: seq<Token>) | Tombstone

  type Store = map<nat, Cell>

  /** What a reader gets: nothing for a free entry, a tombstone or an empty record. */
  function Read(s: Store, rid: nat): Option<seq<Token>> {
    if rid in s && s[rid].Live? && s[rid].tokens != [] then Some(s[rid].tokens) else None
  }

  function GridWrite(s: Store, rid: nat, tokens: seq<Token>): Store {
    s[rid := Live(tokens)]
  }

  function GridDelete(s: Store, rid: nat): Store {
    if rid in s then s[rid := Tombstone] else s
  }

  datatype Write = Write(rid: nat, tokens: seq<Token>)

  /** The three tokens a transaction logs for a delete. */
  const TOMBSTONE: seq<Token> := [0, END, RECORD]

  /** The test commit uses to take a logged record for a delete. */
  predicate DeletesAtCommit(w: Write) {
    |w.tokens| == 3 && w.tokens[0] == 0 && w.tokens[2] == RECORD
  }

  /** The test recovery uses: it does not look at the last token. */
  predicate DeletesAtReplay(w: Write) {
    |w.tokens| == 3 && w.tokens[0] == 0
  }

  function CommitOne(w: Write, s: Store): Store {
    if DeletesAtCommit(w) then GridDelete(s, w.rid) else GridWrite(s, w.rid, w.tokens)
  }

  function ReplayOne(w: Write, s: Store): Store {
    if DeletesAtReplay(w) then GridDelete(s, w.rid) else GridWrite(s, w.rid, w.tokens)
  }

  function Replay(ws: seq<Write>, s: Store): Store {
    if ws == [] then s else Replay(ws[1..], ReplayOne(ws[0], s))
  }

  datatype Flag = Pending | Committed

  datatype Entry = Entry(txn: nat, rid: nat, tokens: seq<Token>, flag: Flag)

  function Ids(log: seq<Entry>): set<int> {
    set e | e in log :: e.txn
  }

  function CommittedIds(log: seq<Entry>): set<int> {
    set e | e in log && e.flag == Committed :: e.txn
  }

  /** The pending writes of the given transactions, in log order. */
  function Select(log: seq<Entry>, ids: set<int>): seq<Write> {
    if log == [] then []
    else (if log[0].flag == Pending && log[0].txn in ids then [Write(log[0].rid, log[0].tokens)] else [])
         + Select(log[1..], ids)
  }

  /** What recovery replays. */
  function CommittedWrites(log: seq<Entry>): seq<Write> {
    Select(log, CommittedIds(log))
  }

  function Marker(id: nat): seq<Token> {
    EncodeInteger(id) + [RECORD]
  }

  /** The transaction a DIRTY record names: the last number in it. */
  function TornId(s: Store): Option<int> {
    var dirty := Read(s, DIRTY_RID);
    if dirty.None? then None
    else
      var nums := TokenParser.NumbersIn(dirty.value);
      if nums == [] then None else Some(nums[|nums| - 1])
  }

  // ----- the machine -----

  datatype Phase =
    | Idle
    /** Replaying the committed log; todo is what is left. */
    | Recovering(todo: seq<Write>)
    /** Replaying a torn transaction; with opens, begin goes on to hand out that
        transaction, else a recovery ends here. */
    | Finishing(todo: seq<Write>, opens: Option<nat>)
    | Open(id: nat, pending: seq<Write>)
    /** The COMMIT marker is in the log, the DIRTY record is not yet written. */
    | Marking(id: nat, pending: seq<Write>)
    | Applying(id: nat, todo: seq<Write>)

  datatype Txn = Txn(id: nat, writes: seq<Write>)

  /** log and store are on disk; phase is the memory of the process that holds
      the lock. history and stale are observers nothing reads: the transactions
      whose COMMIT marker was written, and whether a crash has fallen between a
      COMMIT marker and its DIRTY record, or inside a replay of the whole log,
      with no recovery completed since. */
  datatype World = World(log: seq<Entry>, store: Store, phase: Phase, history: seq<Txn>, stale: bool)

  datatype Event =
    | Recover
    | Begin(id: nat)
    | Put(rid: nat, tokens: seq<Token>)
    | Delete(rid: nat)
    | Commit
    | Rollback
    | Tick
    | Crash

  function Logged(w: World, id: nat, pending: seq<Write>, write: Write): World {
    w.(log := w.log + [Entry(id, write.rid, write.tokens, Pending)],
       phase := Open(id, pending + [write]))
  }

  /** begin and recover both look for a torn transaction before they go on. */
  function LookForTorn(w: World, opens: Option<nat>): World {
    var torn := TornId(w.store);
    if torn.Some? then w.(phase := Finishing(Select(w.log, {torn.value}), opens))
    else Released(w, opens)
  }

  function Released(w: World, opens: Option<nat>): World {
    w.(phase := if opens.Some? then Open(opens.value, []) else Idle)
  }

  /** The next disk effect of the process that holds the lock. */
  function DoTick(w: World): World {
    match w.phase
    case Recovering(todo) =>
      if todo != [] then w.(store := ReplayOne(todo[0], w.store), phase := Recovering(todo[1..]))
      else LookForTorn(w.(stale := false), None)
    case Finishing(todo, opens) =>
      if todo != [] then w.(store := ReplayOne(todo[0], w.store), phase := Finishing(todo[1..], opens))
      else Released(w.(store := GridDelete(w.store, DIRTY_RID)), opens)
    case Marking(id, pending) =>
      w.(store := GridWrite(w.store, DIRTY_RID, Marker(id)), phase := Applying(id, pending))
    case Applying(id, todo) =>
      if todo != [] then w.(store := CommitOne(todo[0], w.store), phase := Applying(id, todo[1..]))
      else w.(store := GridDelete(w.store, DIRTY_RID), phase := Idle)
    case _ => w
  }

  /** One event; an event that does not apply changes nothing. Transaction ids
      are new, and no transaction writes the reserved record. */
  function Next(w: World, e: Event): World {
    match e
    case Recover =>
      if w.phase.Idle? then w.(phase := Recovering(CommittedWrites(w.log))) else w
    case Begin(id) =>
      if w.phase.Idle? && id !in Ids(w.log) then LookForTorn(w, Some(id)) else w
    case Put(rid, tokens) =>
      if w.phase.Open? && rid != DIRTY_RID then Logged(w, w.phase.id, w.phase.pending, Write(rid, tokens)) else w
    case Delete(rid) =>
      if w.phase.Open? && rid != DIRTY_RID then Logged(w, w.phase.id, w.phase.pending, Write(rid, TOMBSTONE)) else w
    case Commit =>
      if w.phase.Open? then
        w.(log := w.log + [Entry(w.phase.id, 0, CommitTokens(w.phase.id), Committed)],
           phase := Marking(w.phase.id, w.phase.pending),
           history := w.history + [Txn(w.phase.id, w.phase.pending)])
      else w
    case Rollback =>
      if w.phase.Open? then w.(phase := Idle) else w
    case Tick => DoTick(w)
    case Crash =>
      w.(phase := Idle, stale := w.stale || w.phase.Marking? || w.phase.Recovering?)
  }

  /** The COMMIT record: the id and the word COMMIT. */
  function CommitTokens(id: nat): seq<Token> {
    EncodeInteger(id) + [START, 3, 15, 13, 13, 9, 20, END] + [RECORD]
  }

  function Run(w: World, events: seq<Event>): World
    decreases |events|
  {
    if events == [] then w else Run(Next(w, events[0]), events[1..])
  }

  /** A grid nobody has opened a transaction on. */
  function Fresh(base: Store): World {
    World([], base, Idle, [], false)
  }

  function Work(w: World): nat {
    match w.phase
    case Recovering(todo) => |todo| + |w.log| + 3
    case Finishing(todo, _) => |todo| + 1
    case Marking(_, pending) => |pending| + 2
    case Applying(_, todo) => |todo| + 1
    case _ => 0
  }

  lemma {:induction false} SelectLength(log: seq<Entry>, ids: set<int>)
    ensures |Select(log, ids)| <= |log|
  {
    if log != [] {
      SelectLength(log[1..], ids);
    }
  }

  lemma TickWorks(w: World)
    requires Work(w) > 0
    ensures Work(DoTick(w)) < Work(w)
  {
    if w.phase == Recovering([]) {
      var torn := TornId(w.store);
      if torn.Some? {
        SelectLength(w.log, {torn.value});
      }
    }
  }

  /** The holder of the lock carries on, undisturbed, until it has nothing left
      to do by itself. */
  function Settle(w: World): World
    decreases Work(w)
  {
    if Work(w) == 0 then w else TickWorks(w); Settle(DoTick(w))
  }

  // ----- reading alike -----

  /** The two stores read alike at every record but the reserved one and xs. */
  ghost predicate Alike(s: Store, t: Store, xs: set<nat>) {
    forall r: nat :: r != DIRTY_RID && r !in xs ==> Read(s, r) == Read(t, r)
  }

  function Touched(ws: seq<Write>): set<nat> {
    set w | w in ws :: w.rid
  }

  predicate AllPlain(ts: seq<Txn>) {
    forall t, w | t in ts && w in t.writes :: DeletesAtReplay(w) ==> DeletesAtCommit(w)
  }

  function Writes(ts: seq<Txn>): seq<Write> {
    if ts == [] then [] else Writes(ts[..|ts| - 1]) + ts[|ts| - 1].writes
  }

  /** Replaying hides whatever stood in the records it touches. */
  lemma {:induction false} ReplayHides(ws: seq<Write>, s: Store, t: Store, xs: set<nat>)
    requires Alike(s, t, Touched(ws) + xs)
    ensures Alike(Replay(ws, s), Replay(ws, t), xs)
  {
    if ws != [] {
      assert Touched(ws) == Touched(ws[1..]) + {ws[0].rid} by {
        assert ws == [ws[0]] + ws[1..];
      }
      var s', t' := ReplayOne(ws[0], s), ReplayOne(ws[0], t);
      forall r: nat | r != DIRTY_RID && r !in Touched(ws[1..]) + xs
        ensures Read(s', r) == Read(t', r)
      {
        if r != ws[0].rid {
          assert r !in Touched(ws) + xs;
          assert Read(s, r) == Read(t, r);
        }
      }
      ReplayHides(ws[1..], s', t', xs);
    }
  }

  lemma {:induction false} ReplayFrame(ws: seq<Write>, s: Store)
    ensures Alike(Replay(ws, s), s, Touched(ws))
  {
    if ws != [] {
      assert Touched(ws) == Touched(ws[1..]) + {ws[0].rid} by {
        assert ws == [ws[0]] + ws[1..];
      }
      ReplayFrame(ws[1..], ReplayOne(ws[0], s));
    }
  }

  lemma {:induction false} ReplayAppend(a: seq<Write>, b: seq<Write>, s: Store)
    ensures Replay(a + b, s) == Replay(b, Replay(a, s))
  {
    if a == [] {
      assert a + b == b;
    } else {
      assert (a + b)[1..] == a[1..] + b;
      ReplayAppend(a[1..], b, ReplayOne(a[0], s));
    }
  }

  lemma {:induction false} SelectAppend(a: seq<Entry>, b: seq<Entry>, ids: set<int>)
    ensures Select(a + b, ids) == Select(a, ids) + Select(b, ids)
  {
    if a == [] {
      assert a + b == b;
    } else {
      assert (a + b)[1..] == a[1..] + b;
      SelectAppend(a[1..], b, ids);
    }
  }

  lemma {:induction false} SelectSame(log: seq<Entry>, ids: set<int>, jds: set<int>)
    requires forall e :: e in log ==> (e.txn in ids <==> e.txn in jds)
    ensures Select(log, ids) == Select(log, jds)
  {
    if log != [] {
      SelectSame(log[1..], ids, jds);
    }
  }

  lemma {:induction false} SelectNone(log: seq<Entry>, ids: set<int>)
    requires forall e :: e in log ==> e.txn !in ids
    ensures Select(log, ids) == []
  {
    if log != [] {
      SelectNone(log[1..], ids);
    }
  }

  // ----- what every step keeps -----

  /** The replay of the committed transactions over the grid they started from. */
  function Fold(history: seq<Txn>, base: Store): Store {
    Replay(Writes(history), base)
  }

  /** The log tells the history: which transactions committed, with which writes,
      and that none of them wrote the reserved record. */
  ghost predicate LogTells(log: seq<Entry>, history: seq<Txn>) {
    && CommittedWrites(log) == Writes(history)
    && CommittedIds(log) == (set t | t in history :: t.id)
    && (forall t :: t in history ==> Select(log, {t.id}) == t.writes)
    && (forall e :: e in log && e.flag == Pending ==> e.rid != DIRTY_RID)
  }

  predicate DirtyNames(s: Store, id: nat) {
    DIRTY_RID in s && s[DIRTY_RID] == Live(Marker(id))
  }

  predicate Clean(s: Store) {
    Read(s, DIRTY_RID) == None
  }

  function Last(history: seq<Txn>): Txn
    requires history != []
  {
    history[|history| - 1]
  }

  function Earlier(history: seq<Txn>): seq<Txn>
    requires history != []
  {
    history[..|history| - 1]
  }

  /** A DIRTY record names the last committed transaction. */
  ghost predicate DirtyIsLast(w: World) {
    Clean(w.store) || (w.history != [] && DirtyNames(w.store, Last(w.history).id))
  }

  /** The store reads as the committed transactions say once the torn one, if
      any, is finished. */
  ghost predicate UpToTorn(w: World, base: Store) {
    if Clean(w.store) then Alike(w.store, Fold(w.history, base), {})
    else w.history != [] && Alike(w.store, Fold(Earlier(w.history), base), Touched(Last(w.history).writes))
  }

  ghost predicate Trusted(w: World) {
    !w.stale && AllPlain(w.history)
  }

  function Rows(id: nat, ws: seq<Write>): (rows: seq<Entry>)
    ensures |rows| == |ws|
  {
    seq(|ws|, i requires 0 <= i < |ws| => Entry(id, ws[i].rid, ws[i].tokens, Pending))
  }

  /** The open transaction's writes end the log, and nothing before them is its. */
  ghost predicate LoggedLast(log: seq<Entry>, id: nat, pending: seq<Write>) {
    && |pending| <= |log|
    && log[|log| - |pending|..] == Rows(id, pending)
    && id !in Ids(log[..|log| - |pending|])
  }

  ghost predicate PhaseOk(w: World, base: Store) {
    match w.phase
    case Idle => Trusted(w) ==> UpToTorn(w, base)
    case Recovering(todo) =>
      && (forall x :: x in todo ==> x.rid != DIRTY_RID && x in Writes(w.history))
      && Alike(Replay(todo, w.store), Fold(w.history, base), {})
    case Finishing(todo, opens) =>
      && !Clean(w.store)
      && w.history != []
      && (forall x :: x in todo ==> x.rid != DIRTY_RID && x in Last(w.history).writes)
      && (opens.Some? ==> opens.value !in Ids(w.log))
      && (opens.None? ==> !w.stale)
      && (opens.None? || Trusted(w) ==> UpToTorn(w, base) && Alike(Replay(todo, w.store), Fold(w.history, base), {}))
    case Open(id, pending) =>
      && Clean(w.store)
      && LoggedLast(w.log, id, pending)
      && (forall x :: x in pending ==> x.rid != DIRTY_RID)
      && (Trusted(w) ==> Alike(w.store, Fold(w.history, base), {}))
    case Marking(id, pending) =>
      && Clean(w.store)
      && w.history != [] && Last(w.history) == Txn(id, pending)
      && (Trusted(w) ==> Alike(w.store, Fold(Earlier(w.history), base), {}))
    case Applying(id, todo) =>
      && w.history != [] && Last(w.history).id == id
      && DirtyNames(w.store, id)
      && (forall x :: x in todo ==> x.rid != DIRTY_RID && x in Last(w.history).writes)
      && (Trusted(w) ==> UpToTorn(w, base) && Alike(Replay(todo, w.store), Fold(w.history, base), {}))
  }

  ghost predicate Inv(w: World, base: Store) {
    && LogTells(w.log, w.history)
    && DirtyIsLast(w)
    && Alike(w.store, base, Touched(Writes(w.history)))
    && PhaseOk(w, base)
  }

  lemma {:induction false} SelectRows(id: nat, ws: seq<Write>, ids: set<int>)
    ensures Select(Rows(id, ws), ids) == if id in ids then ws else []
  {
    if ws != [] {
      assert Rows(id, ws)[1..] == Rows(id, ws[1..]);
      SelectRows(id, ws[1..], ids);
      assert ws == [ws[0]] + ws[1..];
    }
  }

  /** A pending entry leaves the committed part of the log alone. */
  lemma LogGrows(log: seq<Entry>, history: seq<Txn>, id: nat, pending: seq<Write>, x: Write)
    requires LogTells(log, history) && LoggedLast(log, id, pending) && x.rid != DIRTY_RID
    ensures LogTells(log + [Entry(id, x.rid, x.tokens, Pending)], history)
    ensures LoggedLast(log + [Entry(id, x.rid, x.tokens, Pending)], id, pending + [x])
  {
    var e := Entry(id, x.rid, x.tokens, Pending);
    var log' := log + [e];
    NotCommitted(log, id, pending);
    assert CommittedIds(log') == CommittedIds(log);
    SelectAppend(log, [e], CommittedIds(log));
    forall t | t in history ensures Select(log', {t.id}) == t.writes {
      assert t.id in CommittedIds(log);
      SelectAppend(log, [e], {t.id});
    }
    assert log'[|log'| - |pending + [x]|..] == log[|log| - |pending|..] + [e];
    assert Rows(id, pending + [x]) == Rows(id, pending) + [e];
    assert log'[..|log'| - |pending + [x]|] == log[..|log| - |pending|];
  }

  lemma NotCommitted(log: seq<Entry>, id: nat, pending: seq<Write>)
    requires LoggedLast(log, id, pending)
    ensures id !in CommittedIds(log)
  {
    var k := |log| - |pending|;
    forall e | e in log && e.flag == Committed ensures e.txn != id {
      var i :| 0 <= i < |log| && log[i] == e;
      if i >= k {
        assert e == log[k..][i - k] == Rows(id, pending)[i - k];
      } else {
        assert e == log[..k][i];
      }
    }
  }

  lemma WritesPush(ts: seq<Txn>, t: Txn)
    ensures Writes(ts + [t]) == Writes(ts) + t.writes
  {
    assert (ts + [t])[..|ts + [t]| - 1] == ts;
  }

  /** The COMMIT marker turns exactly the open transaction's writes, all of them,
      into the last of the committed ones. */
  lemma CommitSelects(log: seq<Entry>, id: nat, pending: seq<Write>, marker: Entry)
    requires LoggedLast(log, id, pending)
    requires marker.txn == id && marker.flag == Committed
    ensures CommittedIds(log + [marker]) == CommittedIds(log) + {id}
    ensures CommittedWrites(log + [marker]) == CommittedWrites(log) + pending
    ensures Select(log + [marker], {id}) == pending
  {
    var pre := log[..|log| - |pending|];
    var ids := CommittedIds(log);
    LogSplits(log, id, pending, marker);
    hide *;
    SelectSplit(pre, id, pending, marker, ids + {id});
    SelectSplit(pre, id, pending, marker, {id});
    SelectSame(pre, ids + {id}, ids);
    SelectNone(pre, {id});
    SelectAppend(pre, Rows(id, pending), ids);
    SelectRows(id, pending, ids);
    assert Select(pre, ids) == Select(log, ids);
    WhatIsCommitted(log + [marker]);
    WhatIsCommitted(log);
  }

  lemma WhatIsCommitted(log: seq<Entry>)
    ensures CommittedWrites(log) == Select(log, CommittedIds(log))
  {
  }

  lemma LogSplits(log: seq<Entry>, id: nat, pending: seq<Write>, marker: Entry)
    requires LoggedLast(log, id, pending)
    requires marker.txn == id && marker.flag == Committed
    ensures var pre := log[..|log| - |pending|];
            log == pre + Rows(id, pending) && forall e :: e in pre ==> e.txn != id
    ensures id !in CommittedIds(log)
    ensures CommittedIds(log + [marker]) == CommittedIds(log) + {id}
  {
    NotCommitted(log, id, pending);
    var pre := log[..|log| - |pending|];
    forall e | e in pre ensures e.txn != id {
      assert e.txn in Ids(pre);
    }
  }

  lemma SelectSplit(pre: seq<Entry>, id: nat, pending: seq<Write>, marker: Entry, ids: set<int>)
    requires id in ids && marker.flag == Committed
    ensures Select(pre + Rows(id, pending) + [marker], ids) == Select(pre, ids) + pending
  {
    SelectAppend(pre + Rows(id, pending), [marker], ids);
    SelectAppend(pre, Rows(id, pending), ids);
    SelectRows(id, pending, ids);
  }

  lemma LogCommits(log: seq<Entry>, history: seq<Txn>, id: nat, pending: seq<Write>, marker: Entry)
    requires LogTells(log, history) && LoggedLast(log, id, pending)
    requires marker.txn == id && marker.flag == Committed
    ensures LogTells(log + [marker], history + [Txn(id, pending)])
  {
    hide LoggedLast, Writes;
    NotCommitted(log, id, pending);
    CommitSelects(log, id, pending, marker);
    WritesPush(history, Txn(id, pending));
    forall t | t in history + [Txn(id, pending)] ensures Select(log + [marker], {t.id}) == t.writes {
      SelectAppend(log, [marker], {t.id});
      if t in history {
        assert t.id in CommittedIds(log);
      }
    }
  }

  // ----- step by step -----

  lemma TornNamed(s: Store, id: nat)
    requires DirtyNames(s, id)
    ensures !Clean(s) && TornId(s) == Some(id)
  {
    TokenParser.OneNumber(id);
  }

  lemma {:induction false} SelectedRids(log: seq<Entry>, ids: set<int>)
    requires forall e :: e in log && e.flag == Pending ==> e.rid != DIRTY_RID
    ensures forall x :: x in Select(log, ids) ==> x.rid != DIRTY_RID
  {
    if log != [] {
      SelectedRids(log[1..], ids);
    }
  }

  lemma FoldLast(history: seq<Txn>, base: Store)
    requires history != []
    ensures Fold(history, base) == Replay(Last(history).writes, Fold(Earlier(history), base))
    ensures Touched(Writes(history)) == Touched(Writes(Earlier(history))) + Touched(Last(history).writes)
  {
    ReplayAppend(Writes(Earlier(history)), Last(history).writes, base);
  }

  lemma HistoryRids(w: World)
    requires LogTells(w.log, w.history)
    ensures forall x :: x in Writes(w.history) ==> x.rid != DIRTY_RID
    ensures forall t, x :: t in w.history && x in t.writes ==> x.rid != DIRTY_RID
  {
    SelectedRids(w.log, CommittedIds(w.log));
    forall t | t in w.history ensures forall x :: x in t.writes ==> x.rid != DIRTY_RID {
      SelectedRids(w.log, {t.id});
    }
  }

  /** Looking for a torn transaction hands on an invariant of the phase chosen. */
  lemma KeepsLook(w: World, base: Store, opens: Option<nat>)
    requires LogTells(w.log, w.history) && DirtyIsLast(w)
    requires Alike(w.store, base, Touched(Writes(w.history)))
    requires opens.Some? ==> opens.value !in Ids(w.log)
    requires opens.None? ==> !w.stale
    requires opens.None? || Trusted(w) ==> UpToTorn(w, base)
    ensures Inv(LookForTorn(w, opens), base)
  {
    hide Replay, Writes, Select, LogTells, Read, Alike, TornId, Clean, Fold, Touched;
    if Clean(w.store) {
      CleanTorn(w.store);
      assert w.log[..|w.log|] == w.log;
    } else {
      KeepsTorn(w, base, opens);
    }
  }

  lemma CleanTorn(s: Store)
    requires Clean(s)
    ensures TornId(s) == None
  {
  }

  lemma KeepsTorn(w: World, base: Store, opens: Option<nat>)
    requires LogTells(w.log, w.history) && DirtyIsLast(w) && !Clean(w.store)
    requires Alike(w.store, base, Touched(Writes(w.history)))
    requires opens.Some? ==> opens.value !in Ids(w.log)
    requires opens.None? ==> !w.stale
    requires opens.None? || Trusted(w) ==> UpToTorn(w, base)
    ensures Inv(LookForTorn(w, opens), base)
  {
    hide Replay, Writes, Select, LogTells, Read, Alike, TornId, Clean, DirtyNames, Touched, LookForTorn, Fold, AllPlain;
    var last := Last(w.history);
    TornFound(w, opens);
    HistoryRids(w);
    if opens.None? || Trusted(w) {
      FinishingReplay(w, base);
    }
  }

  lemma TornFound(w: World, opens: Option<nat>)
    requires LogTells(w.log, w.history) && DirtyIsLast(w) && !Clean(w.store)
    ensures LookForTorn(w, opens) == w.(phase := Finishing(Last(w.history).writes, opens))
  {
    assert Select(w.log, {Last(w.history).id}) == Last(w.history).writes;
    hide LogTells, Writes, Alike, Replay;
    TornNamed(w.store, Last(w.history).id);
  }

  lemma FinishingReplay(w: World, base: Store)
    requires UpToTorn(w, base) && !Clean(w.store)
    ensures Alike(Replay(Last(w.history).writes, w.store), Fold(w.history, base), {})
  {
    hide Replay, Alike, Clean, Fold, Touched;
    var ws := Last(w.history).writes;
    FoldLast(w.history, base);
    assert Touched(ws) + {} == Touched(ws);
    ReplayHides(ws, w.store, Fold(Earlier(w.history), base), {});
  }

  /** One write outside the reserved record, inside a set of records that may differ. */
  lemma ReplayOneFrame(x: Write, s: Store, t: Store, xs: set<nat>)
    requires Alike(s, t, xs) && x.rid in xs && x.rid != DIRTY_RID
    ensures Alike(ReplayOne(x, s), t, xs) && Alike(CommitOne(x, s), t, xs)
    ensures DirtySame(ReplayOne(x, s), s) && DirtySame(CommitOne(x, s), s)
  {
  }

  ghost predicate DirtySame(s: Store, t: Store) {
    && (Clean(s) <==> Clean(t))
    && (forall id :: DirtyNames(s, id) <==> DirtyNames(t, id))
  }

  /** Writing or removing the reserved record shows nowhere else. */
  lemma DirtyFrame(s: Store, tokens: seq<Token>)
    ensures Alike(GridWrite(s, DIRTY_RID, tokens), s, {}) && Alike(GridDelete(s, DIRTY_RID), s, {})
    ensures Clean(GridDelete(s, DIRTY_RID))
  {
  }

  lemma AlikeTrans(s: Store, t: Store, u: Store, xs: set<nat>)
    requires Alike(s, t, xs) && Alike(t, u, xs)
    ensures Alike(s, u, xs)
  {
  }

  lemma AlikeWider(s: Store, t: Store, xs: set<nat>, ys: set<nat>)
    requires Alike(s, t, xs) && xs <= ys
    ensures Alike(s, t, ys)
  {
  }

  lemma KeepsRecovering(w: World, base: Store)
    requires Inv(w, base) && w.phase.Recovering?
    ensures Inv(DoTick(w), base)
  {
    hide LogTells, Writes, Alike, TornId, Clean, AllPlain, ReplayOne, DirtyNames;
    var todo := w.phase.todo;
    if todo != [] {
      ReplayOneFrame(todo[0], w.store, base, Touched(Writes(w.history)));
    } else {
      if !Clean(w.store) {
        var last := Last(w.history);
        FoldLast(w.history, base);
        var before := Fold(Earlier(w.history), base);
        ReplayFrame(last.writes, before);
        AlikeWider(w.store, Fold(w.history, base), {}, Touched(last.writes));
        AlikeTrans(w.store, Fold(w.history, base), before, Touched(last.writes));
      }
      KeepsLook(w.(stale := false), base, None);
    }
  }

  lemma KeepsFinishing(w: World, base: Store)
    requires Inv(w, base) && w.phase.Finishing?
    ensures Inv(DoTick(w), base)
  {
    hide LogTells, Writes, Alike, TornId, Clean, AllPlain, ReplayOne, DirtyNames;
    var todo := w.phase.todo;
    var last := Last(w.history);
    FoldLast(w.history, base);
    if todo != [] {
      ReplayOneFrame(todo[0], w.store, base, Touched(Writes(w.history)));
      if w.phase.opens.None? || Trusted(w) {
        ReplayOneFrame(todo[0], w.store, Fold(Earlier(w.history), base), Touched(last.writes));
      }
    } else {
      DirtyFrame(w.store, []);
      var s := GridDelete(w.store, DIRTY_RID);
      AlikeWider(s, w.store, {}, Touched(Writes(w.history)));
      AlikeTrans(s, w.store, base, Touched(Writes(w.history)));
      if w.phase.opens.None? || Trusted(w) {
        AlikeTrans(s, w.store, Fold(w.history, base), {});
      }
      assert w.log[..|w.log|] == w.log;
    }
  }

  lemma KeepsMarking(w: World, base: Store)
    requires Inv(w, base) && w.phase.Marking?
    ensures Inv(DoTick(w), base)
  {
    hide *;
    MarkingFacts(w, base);
    var last := Last(w.history);
    var s := GridWrite(w.store, DIRTY_RID, Marker(last.id));
    MarkWorld(w, last, s);
    DirtyWritten(w.store, last.id);
    TornNamed(s, last.id);
    DirtyFrame(w.store, Marker(last.id));
    NothingInside(Touched(Writes(w.history)));
    AlikeWider(s, w.store, {}, Touched(Writes(w.history)));
    AlikeTrans(s, w.store, base, Touched(Writes(w.history)));
    if !w.stale && AllPlain(w.history) {
      MarkingUpToTorn(w, s, base);
    }
    MarkedInv(w, last, s, base);
  }

  lemma NothingInside(xs: set<nat>)
    ensures {} <= xs
  {
  }

  lemma MarkingFacts(w: World, base: Store)
    requires Inv(w, base) && w.phase.Marking?
    ensures LogTells(w.log, w.history) && Alike(w.store, base, Touched(Writes(w.history)))
    ensures w.history != [] && Last(w.history) == Txn(w.phase.id, w.phase.pending)
    ensures !w.stale && AllPlain(w.history) ==> Alike(w.store, Fold(Earlier(w.history), base), {})
    ensures forall x :: x in Last(w.history).writes ==> x.rid != DIRTY_RID
  {
    assert Last(w.history) in w.history;
    HistoryRids(w);
    hide LogTells, Alike, AllPlain, Writes, Touched, Fold, Clean;
  }

  lemma MarkWorld(w: World, last: Txn, s: Store)
    requires w.phase == Marking(last.id, last.writes) && s == GridWrite(w.store, DIRTY_RID, Marker(last.id))
    ensures DoTick(w) == World(w.log, s, Applying(last.id, last.writes), w.history, w.stale)
  {
    hide GridWrite, Marker;
  }

  lemma DirtyWritten(store: Store, id: nat)
    ensures DirtyNames(GridWrite(store, DIRTY_RID, Marker(id)), id)
  {
    hide Marker;
  }

  lemma MarkedInv(w: World, last: Txn, s: Store, base: Store)
    requires LogTells(w.log, w.history) && Alike(s, base, Touched(Writes(w.history)))
    requires w.history != [] && Last(w.history) == last && DirtyNames(s, last.id) && !Clean(s)
    requires forall x :: x in last.writes ==> x.rid != DIRTY_RID
    requires !w.stale && AllPlain(w.history) ==>
      && Alike(s, Fold(Earlier(w.history), base), Touched(last.writes))
      && Alike(Replay(last.writes, s), Fold(w.history, base), {})
    ensures Inv(World(w.log, s, Applying(last.id, last.writes), w.history, w.stale), base)
  {
    hide LogTells, Alike, AllPlain, Writes, Touched, Fold, Clean, DirtyNames, Replay, Last, Earlier;
  }

  lemma MarkingUpToTorn(w: World, s: Store, base: Store)
    requires w.history != [] && Alike(w.store, Fold(Earlier(w.history), base), {})
    requires Alike(s, w.store, {})
    ensures Alike(s, Fold(Earlier(w.history), base), Touched(Last(w.history).writes))
    ensures Alike(Replay(Last(w.history).writes, s), Fold(w.history, base), {})
  {
    hide Alike, Writes, Replay;
    var before := Fold(Earlier(w.history), base);
    var ws := Last(w.history).writes;
    FoldLast(w.history, base);
    AlikeTrans(s, w.store, before, {});
    AlikeWider(s, before, {}, Touched(ws));
    assert Touched(ws) + {} == Touched(ws);
    ReplayHides(ws, s, before, {});
  }

  lemma PlainOne(history: seq<Txn>, x: Write, s: Store)
    requires AllPlain(history) && history != [] && x in Last(history).writes
    ensures CommitOne(x, s) == ReplayOne(x, s)
  {
    assert Last(history) in history;
  }

  lemma KeepsApplying(w: World, base: Store)
    requires Inv(w, base) && w.phase.Applying?
    ensures Inv(DoTick(w), base)
  {
    hide LogTells, Writes, Alike, TornId, Clean, AllPlain, ReplayOne, CommitOne, DirtyNames;
    var todo := w.phase.todo;
    var last := Last(w.history);
    FoldLast(w.history, base);
    TornNamed(w.store, last.id);
    if todo != [] {
      ReplayOneFrame(todo[0], w.store, base, Touched(Writes(w.history)));
      if Trusted(w) {
        ReplayOneFrame(todo[0], w.store, Fold(Earlier(w.history), base), Touched(last.writes));
        PlainOne(w.history, todo[0], w.store);
      }
    } else {
      DirtyFrame(w.store, []);
      var s := GridDelete(w.store, DIRTY_RID);
      AlikeWider(s, w.store, {}, Touched(Writes(w.history)));
      AlikeTrans(s, w.store, base, Touched(Writes(w.history)));
      if Trusted(w) {
        AlikeTrans(s, w.store, Fold(w.history, base), {});
      }
    }
  }

  lemma KeepsTick(w: World, base: Store)
    requires Inv(w, base)
    ensures Inv(DoTick(w), base)
  {
    hide Inv;
    match w.phase
    case Recovering(_) => KeepsRecovering(w, base);
    case Finishing(_, _) => KeepsFinishing(w, base);
    case Marking(_, _) => KeepsMarking(w, base);
    case Applying(_, _) => KeepsApplying(w, base);
    case _ =>
  }

  lemma KeepsCrash(w: World, base: Store)
    requires Inv(w, base)
    ensures Inv(Next(w, Crash), base)
  {
    hide LogTells, Writes, Alike, Clean, AllPlain, DirtyNames, Replay;
  }

  lemma KeepsRecover(w: World, base: Store)
    requires Inv(w, base)
    ensures Inv(Next(w, Recover), base)
  {
    if w.phase.Idle? {
      HistoryRids(w);
      assert CommittedWrites(w.log) == Writes(w.history);
      assert Alike(Replay(Writes(w.history), w.store), Fold(w.history, base), {}) by {
        hide *;
        RecoveryReplay(w, base);
      }
      hide LogTells, Writes, Alike, Clean, AllPlain, DirtyNames, Replay, Select, Fold, Touched;
    }
  }

  lemma RecoveryReplay(w: World, base: Store)
    requires Inv(w, base)
    ensures Alike(Replay(Writes(w.history), w.store), Fold(w.history, base), {})
  {
    hide Writes, Alike, Replay, Touched, LogTells, PhaseOk;
    assert Touched(Writes(w.history)) + {} == Touched(Writes(w.history));
    ReplayHides(Writes(w.history), w.store, base, {});
  }

  lemma KeepsLogging(w: World, base: Store, x: Write)
    requires Inv(w, base) && w.phase.Open? && x.rid != DIRTY_RID
    ensures Inv(Logged(w, w.phase.id, w.phase.pending, x), base)
  {
    hide LogTells, Writes, Alike, Clean, AllPlain, DirtyNames, Replay, LoggedLast;
    LogGrows(w.log, w.history, w.phase.id, w.phase.pending, x);
  }

  lemma PlainPrefix(history: seq<Txn>, t: Txn)
    requires AllPlain(history + [t])
    ensures AllPlain(history)
  {
    forall u | u in history ensures u in history + [t] {
    }
  }

  lemma KeepsCommit(w: World, base: Store)
    requires Inv(w, base)
    ensures Inv(Next(w, Commit), base)
  {
    if w.phase.Open? {
      var t := Txn(w.phase.id, w.phase.pending);
      var entry := Entry(t.id, 0, CommitTokens(t.id), Committed);
      var w' := World(w.log + [entry], w.store, Marking(t.id, t.writes), w.history + [t], w.stale);
      hide *;
      CommitWorld(w, t, entry);
      OpenFacts(w, base);
      LogCommits(w.log, w.history, t.id, t.writes, entry);
      CommitMarks(w, w', t, base);
    }
  }

  lemma CommitWorld(w: World, t: Txn, entry: Entry)
    requires w.phase == Open(t.id, t.writes) && entry == Entry(t.id, 0, CommitTokens(t.id), Committed)
    ensures Next(w, Commit)
         == World(w.log + [entry], w.store, Marking(t.id, t.writes), w.history + [t], w.stale)
  {
  }

  lemma OpenFacts(w: World, base: Store)
    requires Inv(w, base) && w.phase.Open?
    ensures LogTells(w.log, w.history) && LoggedLast(w.log, w.phase.id, w.phase.pending) && Clean(w.store)
    ensures Alike(w.store, base, Touched(Writes(w.history)))
    ensures !w.stale && AllPlain(w.history) ==> Alike(w.store, Fold(w.history, base), {})
  {
  }

  lemma CommitMarks(w: World, w': World, t: Txn, base: Store)
    requires LogTells(w'.log, w'.history) && Clean(w.store)
    requires Alike(w.store, base, Touched(Writes(w.history)))
    requires !w.stale && AllPlain(w.history) ==> Alike(w.store, Fold(w.history, base), {})
    requires w' == World(w'.log, w.store, Marking(t.id, t.writes), w.history + [t], w.stale)
    ensures Inv(w', base)
  {
    hide *;
    Pushed(w.history, t);
    WritesPush(w.history, t);
    TouchedMore(Writes(w.history), t.writes);
    AlikeWider(w.store, base, Touched(Writes(w.history)), Touched(Writes(w'.history)));
    if AllPlain(w'.history) {
      PlainPrefix(w.history, t);
    }
    MarkingInv(w', base);
  }

  lemma Pushed(history: seq<Txn>, t: Txn)
    ensures Earlier(history + [t]) == history && Last(history + [t]) == t
  {
  }

  lemma TouchedMore(a: seq<Write>, b: seq<Write>)
    ensures Touched(a) <= Touched(a + b)
  {
    forall w | w in a ensures w in a + b {
    }
  }

  lemma MarkingInv(w: World, base: Store)
    requires LogTells(w.log, w.history) && Alike(w.store, base, Touched(Writes(w.history))) && Clean(w.store)
    requires w.phase.Marking? && w.history != [] && Last(w.history) == Txn(w.phase.id, w.phase.pending)
    requires !w.stale && AllPlain(w.history) ==> Alike(w.store, Fold(Earlier(w.history), base), {})
    ensures Inv(w, base)
  {
    hide LogTells, Alike, AllPlain, Writes, Touched, Fold, Clean, Last, Earlier;
  }

  lemma KeepsNext(w: World, base: Store, e: Event)
    requires Inv(w, base)
    ensures Inv(Next(w, e), base)
  {
    match e
    case Recover => KeepsRecover(w, base);
    case Begin(id) =>
      hide LogTells, Writes, Alike, Clean, AllPlain, DirtyNames, Replay, LoggedLast;
      if w.phase.Idle? && id !in Ids(w.log) {
        KeepsLook(w, base, Some(id));
      }
    case Put(rid, tokens) =>
      hide Inv;
      if w.phase.Open? && rid != DIRTY_RID {
        KeepsLogging(w, base, Write(rid, tokens));
      }
    case Delete(rid) =>
      hide Inv;
      if w.phase.Open? && rid != DIRTY_RID {
        KeepsLogging(w, base, Write(rid, TOMBSTONE));
      }
    case Commit => KeepsCommit(w, base);
    case Rollback =>
      hide LogTells, Writes, Alike, Clean, AllPlain, DirtyNames, Replay, LoggedLast;
    case Tick => KeepsTick(w, base);
    case Crash => KeepsCrash(w, base);
  }

  lemma {:induction false} KeepsRun(w: World, base: Store, events: seq<Event>)
    requires Inv(w, base)
    ensures Inv(Run(w, events), base)
    decreases |events|
  {
    hide Inv, Next;
    if events != [] {
      KeepsNext(w, base, events[0]);
      KeepsRun(Next(w, events[0]), base, events[1..]);
    }
  }

  // ----- what the protocol promises -----

  lemma EveryRun(base: Store, events: seq<Event>)
    requires Clean(base)
    ensures Inv(Run(Fresh(base), events), base)
  {
    KeepsRun(Fresh(base), base, events);
  }

  /** In every reachable state the writes a recovery would replay are those of the
      transactions that reached their COMMIT marker, whole, and in commit order:
      nothing of an abandoned, rolled back or still open transaction. */
  lemma LogIsHistory(base: Store, events: seq<Event>)
    requires Clean(base)
    ensures var w := Run(Fresh(base), events);
            CommittedWrites(w.log) == Writes(w.history)
  {
    EveryRun(base, events);
  }

  /** A committed transaction stays committed. */
  lemma {:induction false} HistoryOnlyGrows(w: World, events: seq<Event>)
    ensures w.history <= Run(w, events).history
    decreases |events|
  {
    if events != [] {
      HistoryOnlyGrows(Next(w, events[0]), events[1..]);
    }
  }

  /** A process that is recovering goes on to the end: every reader then sees the
      committed transactions in order, and the DIRTY record is gone. */
  lemma {:induction false} RecoversOn(w: World, base: Store)
    requires Inv(w, base)
    requires w.phase.Recovering? || (w.phase.Finishing? && w.phase.opens.None?)
    ensures var r := Settle(w);
            && r.phase.Idle? && !r.stale && r.log == w.log && r.history == w.history
            && Clean(r.store) && Alike(r.store, Fold(w.history, base), {})
    decreases Work(w)
  {
    KeepsTick(w, base);
    TickWorks(w);
    var w' := DoTick(w);
    if w'.phase.Idle? {
      RecoveryEnds(w, base);
    } else {
      StillRecovers(w);
      RecoversOn(w', base);
    }
  }

  lemma StillRecovers(w: World)
    requires w.phase.Recovering? || (w.phase.Finishing? && w.phase.opens.None?)
    requires !DoTick(w).phase.Idle?
    ensures var w' := DoTick(w);
            && (w'.phase.Recovering? || (w'.phase.Finishing? && w'.phase.opens.None?))
            && w'.log == w.log && w'.history == w.history
  {
  }

  lemma RecoveryEnds(w: World, base: Store)
    requires Inv(w, base)
    requires w.phase.Recovering? || (w.phase.Finishing? && w.phase.opens.None?)
    requires DoTick(w).phase.Idle?
    ensures var r := DoTick(w);
            && !r.stale && r.log == w.log && r.history == w.history
            && Clean(r.store) && Alike(r.store, Fold(w.history, base), {})
  {
    if w.phase.Recovering? {
      assert w.phase.todo == [] && TornId(w.store).None?;
      if !Clean(w.store) {
        TornNamed(w.store, Last(w.history).id);
      }
    } else {
      DirtyFrame(w.store, []);
      AlikeTrans(GridDelete(w.store, DIRTY_RID), w.store, Fold(w.history, base), {});
    }
  }

  /** Crash recovery. After any run of transactions with any crashes, earlier
      recoveries cut short included, a recovery that is let finish leaves the
      grid reading as the committed transactions replayed in order over the grid
      they started from, with no DIRTY record and the log untouched. */
  lemma RecoveryRestores(base: Store, events: seq<Event>)
    requires Clean(base)
    requires Run(Fresh(base), events).phase.Idle?
    ensures var w := Run(Fresh(base), events);
            var r := Settle(Next(w, Recover));
            && r.phase.Idle? && r.log == w.log && r.history == w.history
            && Clean(r.store) && Alike(r.store, Fold(w.history, base), {})
  {
    var w := Run(Fresh(base), events);
    EveryRun(base, events);
    KeepsRecover(w, base);
    RecoversOn(Next(w, Recover), base);
  }

  /** Whenever a DIRTY record can be read, it names the last committed transaction. */
  lemma DirtyNamesLast(base: Store, events: seq<Event>)
    requires Clean(base)
    ensures var w := Run(Fresh(base), events);
            Read(w.store, DIRTY_RID).Some? ==>
              w.history != [] && TornId(w.store) == Some(w.history[|w.history| - 1].id)
  {
    EveryRun(base, events);
    var w := Run(Fresh(base), events);
    if !Clean(w.store) {
      TornNamed(w.store, Last(w.history).id);
    }
  }

  /** While a transaction is open the grid reads as all the committed ones, and as
      nothing else, unless since the last recovery a crash fell between a COMMIT
      marker and its DIRTY record or inside a replay of the log. */
  lemma OpenSeesCommitted(base: Store, events: seq<Event>)
    requires Clean(base)
    ensures var w := Run(Fresh(base), events);
            w.phase.Open? && !w.stale && AllPlain(w.history) ==> Alike(w.store, Fold(w.history, base), {})
  {
    EveryRun(base, events);
  }

  /** begin finishes a torn predecessor and then does hand out the transaction. */
  lemma BeginOpens(base: Store, events: seq<Event>, id: nat)
    requires Clean(base)
    requires var w := Run(Fresh(base), events); w.phase.Idle? && id !in Ids(w.log)
    ensures var w := Run(Fresh(base), events);
            var r := Settle(Next(w, Begin(id)));
            && r.phase == Open(id, []) && r.history == w.history && Clean(r.store)
            && (!w.stale && AllPlain(w.history) ==> Alike(r.store, Fold(w.history, base), {}))
  {
    var w := Run(Fresh(base), events);
    EveryRun(base, events);
    KeepsNext(w, base, Begin(id));
    OpensOn(Next(w, Begin(id)), base, id);
  }

  lemma {:induction false} OpensOn(w: World, base: Store, id: nat)
    requires Inv(w, base)
    requires w.phase == Open(id, []) || (w.phase.Finishing? && w.phase.opens == Some(id))
    ensures var r := Settle(w);
            && r.phase == Open(id, []) && r.history == w.history && Clean(r.store)
            && (Trusted(w) ==> Alike(r.store, Fold(w.history, base), {}))
    decreases Work(w)
  {
    if w.phase.Finishing? {
      KeepsTick(w, base);
      TickWorks(w);
      var w' := DoTick(w);
      assert w'.history == w.history && w'.stale == w.stale;
      assert w'.phase == Open(id, []) || (w'.phase.Finishing? && w'.phase.opens == Some(id));
      OpensOn(w', base, id);
    }
  }

  /** A commit let finish shows all its writes over all the earlier ones. */
  lemma CommitShows(base: Store, events: seq<Event>)
    requires Clean(base)
    requires Run(Fresh(base), events).phase.Open?
    ensures var w := Run(Fresh(base), events);
            var r := Settle(Next(w, Commit));
            && r.phase.Idle? && r.history == w.history + [Txn(w.phase.id, w.phase.pending)]
            && (!r.stale && AllPlain(r.history) ==> Clean(r.store) && Alike(r.store, Fold(r.history, base), {}))
  {
    var w := Run(Fresh(base), events);
    EveryRun(base, events);
    KeepsCommit(w, base);
    AppliesOn(Next(w, Commit), base);
  }

  lemma {:induction false} AppliesOn(w: World, base: Store)
    requires Inv(w, base) && (w.phase.Marking? || w.phase.Applying?)
    ensures var r := Settle(w);
            && r.phase.Idle? && r.history == w.history && r.stale == w.stale
            && Clean(r.store) && (Trusted(w) ==> Alike(r.store, Fold(w.history, base), {}))
    decreases Work(w)
  {
    KeepsTick(w, base);
    TickWorks(w);
    var w' := DoTick(w);
    if w'.phase.Idle? {
      DirtyFrame(w.store, []);
    } else {
      assert w'.history == w.history && w'.stale == w.stale && w'.phase.Applying?;
      AppliesOn(w', base);
    }
  }

  // ----- where the promise stops -----

  /** The two delete tests agree on a logged record, for every reader, exactly
      when it is not three tokens from D0 to something other than RECORD. */
  lemma TestsAgree(x: Write, s: Store)
    ensures Alike(CommitOne(x, s), ReplayOne(x, s), {}) || x.rid == DIRTY_RID
      <==> x.rid == DIRTY_RID || !(|x.tokens| == 3 && x.tokens[0] == 0 && x.tokens[2] != RECORD)
  {
    if |x.tokens| == 3 && x.tokens[0] == 0 && x.tokens[2] != RECORD {
      assert Read(CommitOne(x, s), x.rid).Some? && Read(ReplayOne(x, s), x.rid).None?;
    }
  }

  lemma {:induction false} RunSnoc(w: World, events: seq<Event>, e: Event)
    ensures Run(w, events + [e]) == Next(Run(w, events), e)
    decreases |events|
  {
    hide Next;
    if events == [] {
      assert [e][1..] == [] && [] + [e] == [e];
      assert Run(Next(w, e), []) == Next(w, e);
    } else {
      assert (events + [e])[1..] == events[1..] + [e];
      RunSnoc(Next(w, events[0]), events[1..], e);
    }
  }

  const SEVEN: Write := Write(5, [7, END, RECORD])
  const EIGHT: Write := Write(5, [8, END, RECORD])

  const TWICE: seq<Event> := [Begin(1), Put(5, SEVEN.tokens), Put(5, EIGHT.tokens), Commit]

  /** A transaction that writes the same record twice, up to its COMMIT marker. */
  lemma TwiceCommits() returns (log: seq<Entry>)
    ensures Run(Fresh(map[]), TWICE)
         == World(log, map[], Marking(1, [SEVEN, EIGHT]), [Txn(1, [SEVEN, EIGHT])], false)
    ensures 2 !in Ids(log) && CommittedWrites(log) == [SEVEN, EIGHT]
  {
    var w0 := Fresh(map[]);
    var w1 := Next(w0, Begin(1));
    assert w1 == World([], map[], Open(1, []), [], false);
    var w2 := Next(w1, Put(5, SEVEN.tokens));
    assert w2.phase == Open(1, [SEVEN]);
    var w3 := Next(w2, Put(5, EIGHT.tokens));
    assert w3.phase == Open(1, [SEVEN, EIGHT]);
    var w4 := Next(w3, Commit);
    log := w4.log;
    assert w4 == World(log, map[], Marking(1, [SEVEN, EIGHT]), [Txn(1, [SEVEN, EIGHT])], false);
    assert forall e :: e in log ==> e.txn == 1;
    assert [] + [Begin(1)] + [Put(5, SEVEN.tokens)] + [Put(5, EIGHT.tokens)] + [Commit] == TWICE;
    RunSnoc(w0, [], Begin(1));
    RunSnoc(w0, [] + [Begin(1)], Put(5, SEVEN.tokens));
    RunSnoc(w0, [] + [Begin(1)] + [Put(5, SEVEN.tokens)], Put(5, EIGHT.tokens));
    RunSnoc(w0, [] + [Begin(1)] + [Put(5, SEVEN.tokens)] + [Put(5, EIGHT.tokens)], Commit);
    LogIsHistory(map[], TWICE);
    OneFold(1, [SEVEN, EIGHT]);
  }

  lemma OneFold(id: nat, ws: seq<Write>)
    ensures Writes([Txn(id, ws)]) == ws
  {
    WritesPush([], Txn(id, ws));
    assert [] + [Txn(id, ws)] == [Txn(id, ws)];
  }

  lemma TwiceFold(s: Store)
    ensures Replay([SEVEN, EIGHT], s) == s[5 := Live(SEVEN.tokens)][5 := Live(EIGHT.tokens)]
    ensures Read(Replay([SEVEN, EIGHT], s), 5) == Some(EIGHT.tokens)
  {
    assert [SEVEN, EIGHT][1..] == [EIGHT] && [EIGHT][1..] == [];
    assert Replay([SEVEN, EIGHT], s) == Replay([EIGHT], ReplayOne(SEVEN, s));
    assert Replay([EIGHT], ReplayOne(SEVEN, s)) == ReplayOne(EIGHT, ReplayOne(SEVEN, s));
  }

  /** A crash between a COMMIT marker and its DIRTY record: the next begin of a
      process that is already up hands out a grid without that transaction. */
  lemma WindowHidesCommit()
    ensures var w := Run(Fresh(map[]), TWICE + [Crash] + [Begin(2)]);
            && w.phase == Open(2, []) && w.history == [Txn(1, [SEVEN, EIGHT])]
            && Read(w.store, 5) == None
            && Read(Fold(w.history, map[]), 5) == Some(EIGHT.tokens)
  {
    var log := TwiceCommits();
    RunSnoc(Fresh(map[]), TWICE, Crash);
    RunSnoc(Fresh(map[]), TWICE + [Crash], Begin(2));
    OneFold(1, [SEVEN, EIGHT]);
    TwiceFold(map[]);
    hide Run, Replay, Writes, CommittedWrites;
    Unmarked(log, Txn(1, [SEVEN, EIGHT]), 2);
  }

  lemma Unmarked(log: seq<Entry>, t: Txn, id: nat)
    requires id !in Ids(log)
    ensures var w := Next(Next(World(log, map[], Marking(t.id, t.writes), [t], false), Crash), Begin(id));
            && w.phase == Open(id, []) && w.history == [t] && Read(w.store, 5) == None
  {
    hide Ids, Select;
    CleanTorn(map[]);
  }

  const APPLIED: seq<Event> := TWICE + [Tick] + [Tick] + [Tick] + [Tick]

  lemma TwiceApplied() returns (log: seq<Entry>, store: Store)
    ensures Run(Fresh(map[]), APPLIED) == World(log, store, Idle, [Txn(1, [SEVEN, EIGHT])], false)
    ensures 2 !in Ids(log) && CommittedWrites(log) == [SEVEN, EIGHT]
    ensures Clean(store) && Read(store, 5) == Some(EIGHT.tokens)
  {
    log := TwiceCommits();
    var w0 := Fresh(map[]);
    var w4 := Run(w0, TWICE);
    RunSnoc(w0, TWICE, Tick);
    RunSnoc(w0, TWICE + [Tick], Tick);
    RunSnoc(w0, TWICE + [Tick] + [Tick], Tick);
    RunSnoc(w0, TWICE + [Tick] + [Tick] + [Tick], Tick);
    hide Run, Select;
    var h := [Txn(1, [SEVEN, EIGHT])];
    var s1 := GridWrite(map[], DIRTY_RID, Marker(1));
    assert DoTick(w4) == World(log, s1, Applying(1, [SEVEN, EIGHT]), h, false);
    assert [SEVEN, EIGHT][1..] == [EIGHT] && [EIGHT][1..] == [];
    var s2 := GridWrite(s1, 5, SEVEN.tokens);
    assert DoTick(DoTick(w4)) == World(log, s2, Applying(1, [EIGHT]), h, false);
    var s3 := GridWrite(s2, 5, EIGHT.tokens);
    assert DoTick(DoTick(DoTick(w4))) == World(log, s3, Applying(1, []), h, false);
    store := GridDelete(s3, DIRTY_RID);
    assert DoTick(DoTick(DoTick(DoTick(w4)))) == World(log, store, Idle, h, false);
  }

  /** A crash inside a recovery can do the same: the replay starts from the oldest
      write, so for a while records go back in time, and begin does not notice. */
  lemma ReplayGoesBack()
    ensures var w := Run(Fresh(map[]), APPLIED + [Recover] + [Tick] + [Crash] + [Begin(2)]);
            && w.phase == Open(2, []) && w.history == [Txn(1, [SEVEN, EIGHT])]
            && Read(w.store, 5) == Some(SEVEN.tokens)
            && Read(Fold(w.history, map[]), 5) == Some(EIGHT.tokens)
  {
    var log, store := TwiceApplied();
    var w0 := Fresh(map[]);
    RunSnoc(w0, APPLIED, Recover);
    RunSnoc(w0, APPLIED + [Recover], Tick);
    RunSnoc(w0, APPLIED + [Recover] + [Tick], Crash);
    RunSnoc(w0, APPLIED + [Recover] + [Tick] + [Crash], Begin(2));
    OneFold(1, [SEVEN, EIGHT]);
    TwiceFold(map[]);
    hide Run, Replay, Writes;
    BackInTime(log, store, [Txn(1, [SEVEN, EIGHT])]);
  }

  lemma BackInTime(log: seq<Entry>, store: Store, h: seq<Txn>)
    requires 2 !in Ids(log) && CommittedWrites(log) == [SEVEN, EIGHT] && Clean(store)
    ensures var w := Next(Next(Next(Next(World(log, store, Idle, h, false), Recover), Tick), Crash), Begin(2));
            && w.phase == Open(2, []) && w.history == h && Read(w.store, 5) == Some(SEVEN.tokens)
  {
    var s := GridWrite(store, 5, SEVEN.tokens);
    CleanTorn(s);
    hide Select, Ids, TornId;
    var w1 := Next(World(log, store, Idle, h, false), Recover);
    assert w1 == World(log, store, Recovering([SEVEN, EIGHT]), h, false);
    assert [SEVEN, EIGHT][1..] == [EIGHT];
    var w2 := Next(w1, Tick);
    assert w2 == World(log, s, Recovering([EIGHT]), h, false);
  }
}
