/** Any number of processes adding to counters kept in one AllocGrid: lock-free
    reads in two steps, then a compare-and-swap under a re-entrant lock
    (python/griddb_concurrency_cas.py over python/griddb_alloc.py). Every disk
    effect but the growth of the table, which changes no entry (GrowFacts in
    AllocDisk), is a step of its own, and any process may run between any two. */
module Cas {
  import opened Lexicon
  import opened Packing
  import opened AllocDisk
  import TokenParser

  // ----- the machine -----

  datatype Pc =
    | Loop
    /** The entry is read, the bytes are not. */
    | Got(entry: AllocEntry)
    /** The new value, and where the old one was; nothing there asks for a plain write. */
    | Ready(value: int, was: Option<(nat, nat)>)
    | Held(value: int, place: (nat, nat))
    | Entering(value: int)
    | Writing(value: int)
    | Appended(value: int, off: nat)
    | Ended(value: int, off: nat)
    | Pointed(value: int)
    | Leaving(ok: bool)

  datatype Client = Client(account: nat, target: nat, done: nat, pc: Pc)

  datatype Version = Version(rid: nat, off: nat, value: int)

  /** lock is the holder of the file lock and its depth. log is an observer: every
      version a table entry was ever pointed at, oldest first. */
  datatype World = World(disk: Disk, lock: Option<(nat, nat)>, clients: seq<Client>, log: seq<Version>)

  /** The last number in a record. */
  function Balance(r: Option<Record>): int {
    if r.None? then 0
    else
      var nums := TokenParser.NumbersIn(r.value.tokens);
      if nums == [] then 0 else nums[|nums| - 1]
  }

  function Holds(lock: Option<(nat, nat)>, c: nat): nat {
    if lock.Some? && lock.value.0 == c then lock.value.1 else 0
  }

  /** One level given back; the file lock goes with the last. */
  function Released(lock: Option<(nat, nat)>): Option<(nat, nat)> {
    if lock.Some? && lock.value.1 > 1 then Some((lock.value.0, lock.value.1 - 1)) else None
  }

  function At(w: World, c: nat, pc: Pc): World
    requires c < |w.clients|
  {
    w.(clients := w.clients[c := w.clients[c].(pc := pc)])
  }

  /** Back to the top of the loop, one deposit further if it landed. */
  function Finish(w: World, c: nat, landed: bool): World
    requires c < |w.clients|
  {
    var k := w.clients[c];
    w.(clients := w.clients[c := k.(pc := Loop, done := if landed then k.done + 1 else k.done)])
  }

  /** The next step of client c; a client that waits for the lock stays put. */
  function Next(w: World, c: nat): World {
    if c >= |w.clients| then w
    else
      var k := w.clients[c];
      match k.pc
      case Loop =>
        if k.done < k.target then At(w, c, Got(EntryAt(w.disk, k.account))) else w
      case Got(entry) =>
        var r := Fetch(w.disk, entry);
        At(w, c, Ready(Balance(r) + 1, if r.None? then None else Some((r.value.off, r.value.bits))))
      case Ready(value, was) =>
        if w.lock.Some? then w
        else
          At(w.(lock := Some((c, 1))), c, if was.Some? then Held(value, was.value) else Writing(value))
      case Held(value, place) =>
        var e := EntryAt(w.disk, k.account);
        At(w, c, if e.off != place.0 || e.bits != place.1 then Leaving(false) else Entering(value))
      case Entering(value) =>
        At(w.(lock := Some((c, Holds(w.lock, c) + 1))), c, Writing(value))
      case Writing(value) =>
        At(w.(disk := AppendData(w.disk, EncodeInteger(value))), c, Appended(value, w.disk.end))
      case Appended(value, off) =>
        At(w.(disk := MoveEnd(w.disk, EncodeInteger(value))), c, Ended(value, off))
      case Ended(value, off) =>
        At(w.(disk := Point(w.disk, k.account, off, EncodeInteger(value)),
              log := w.log + [Version(k.account, off, value)]), c, Pointed(value))
      case Pointed(value) =>
        var lock := Released(w.lock);
        if lock.None? then Finish(w.(lock := lock), c, true) else At(w.(lock := lock), c, Leaving(true))
      case Leaving(ok) =>
        Finish(w.(lock := Released(w.lock)), c, ok)
  }

  // ----- what every step keeps -----

  predicate HasRecord(starts: seq<Option<int>>, a: nat) {
    a < |starts| && starts[a].Some?
  }

  /** What the counter of an account reads as before anyone runs. */
  function StartOf(starts: seq<Option<int>>, a: nat): int {
    if HasRecord(starts, a) then starts[a].value else 0
  }

  /** The versions an account starts with. */
  function Initial(starts: seq<Option<int>>, a: nat): nat {
    if HasRecord(starts, a) then 1 else 0
  }

  function Blob(value: int): seq<nat> {
    Pack(EncodeInteger(value))
  }

  function EntryOf(v: Version): AllocEntry {
    AllocEntry(v.off, 5 * |EncodeInteger(v.value)|, Allocated)
  }

  function Past(v: Version): nat {
    v.off + |Blob(v.value)|
  }

  function Count(log: seq<Version>, a: nat): nat {
    if log == [] then 0
    else Count(log[..|log| - 1], a) + (if log[|log| - 1].rid == a then 1 else 0)
  }

  function Latest(log: seq<Version>, a: nat): Option<Version> {
    if log == [] then None
    else if log[|log| - 1].rid == a then Some(log[|log| - 1])
    else Latest(log[..|log| - 1], a)
  }

  /** The version's bytes are in the file, in its used part. */
  predicate Stored(d: Disk, v: Version) {
    && HEADER <= v.off && Past(v) <= d.end <= |d.data|
    && d.data[v.off..Past(v)] == Blob(v.value)
  }

  /** The versions follow one another in the file, and the table points at the last
      of each account. When lone, each version is one more than the one before. */
  ghost predicate LogOk(d: Disk, log: seq<Version>, starts: seq<Option<int>>, lone: bool) {
    && (forall v :: v in log ==> Stored(d, v))
    && Ordered(log)
    && (lone ==> Valued(log, starts))
    && Pointing(d, log)
    && Begun(log, starts)
  }

  ghost predicate Begun(log: seq<Version>, starts: seq<Option<int>>) {
    forall a: nat :: HasRecord(starts, a) ==> Latest(log, a).Some?
  }

  ghost predicate Ordered(log: seq<Version>) {
    forall i, j :: 0 <= i < j < |log| ==> Past(log[i]) <= log[j].off
  }

  ghost predicate Valued(log: seq<Version>, starts: seq<Option<int>>) {
    forall i :: 0 <= i < |log| ==>
      log[i].value == StartOf(starts, log[i].rid) + 1 - Initial(starts, log[i].rid) + Count(log[..i], log[i].rid)
  }

  /** The table entry of an account whose versions are in the log. */
  function Current(log: seq<Version>, a: nat): AllocEntry {
    if Latest(log, a).Some? then EntryOf(Latest(log, a).value) else NOTHING
  }

  ghost predicate Pointing(d: Disk, log: seq<Version>) {
    forall a: nat :: EntryAt(d, a) == Current(log, a)
  }

  ghost predicate Seen(log: seq<Version>, a: nat, e: AllocEntry) {
    exists v :: v in log && v.rid == a && EntryOf(v) == e
  }

  /** value is one more than a version that was at the expected place. */
  ghost predicate Expected(log: seq<Version>, a: nat, value: int, place: (nat, nat)) {
    Version(a, place.0, value - 1) in log && place.1 == EntryOf(Version(a, place.0, value - 1)).bits
  }

  predicate Newest(log: seq<Version>, a: nat, value: int) {
    value == if Latest(log, a).Some? then Latest(log, a).value.value + 1 else 1
  }

  function Landed(pc: Pc): nat {
    if pc.Pointed? || (pc.Leaving? && pc.ok) then 1 else 0
  }

  /** A plain write holds the lock once, the write inside a swap twice. */
  ghost predicate ClientOk(d: Disk, log: seq<Version>, lone: bool, holds: nat, k: Client) {
    && k.done + (if k.pc.Loop? then 0 else 1) <= k.target
    && match k.pc
       case Loop => holds == 0
       case Got(entry) =>
         && holds == 0
         && (if entry == NOTHING then lone ==> Latest(log, k.account).None? else Seen(log, k.account, entry))
       case Ready(value, was) =>
         && holds == 0
         && (if was.Some? then Expected(log, k.account, value, was.value)
             else value == 1 && (lone ==> Latest(log, k.account).None?))
       case Held(value, place) => holds == 1 && Expected(log, k.account, value, place)
       case Entering(value) => holds == 1 && (lone ==> Newest(log, k.account, value))
       case Writing(value) => 1 <= holds <= 2 && (lone ==> Newest(log, k.account, value))
       case Appended(value, off) =>
         && 1 <= holds <= 2 && (lone ==> Newest(log, k.account, value))
         && off == d.end && off + |Blob(value)| <= |d.data| && d.data[off..off + |Blob(value)|] == Blob(value)
       case Ended(value, off) =>
         && 1 <= holds <= 2 && (lone ==> Newest(log, k.account, value))
         && Stored(d, Version(k.account, off, value))
         && (forall v :: v in log ==> Past(v) <= off)
       case Pointed(value) => 1 <= holds <= 2
       case Leaving(ok) => holds == 1
  }

  function Successes(clients: seq<Client>, a: nat): nat {
    if clients == [] then 0
    else
      var k := clients[|clients| - 1];
      Successes(clients[..|clients| - 1], a) + (if k.account == a then k.done + Landed(k.pc) else 0)
  }

  /** No two clients with deposits to make share an account that has no record. */
  ghost predicate Unshared(clients: seq<Client>, starts: seq<Option<int>>) {
    forall c, o :: 0 <= c < |clients| && 0 <= o < |clients| && c != o
      && clients[c].account == clients[o].account && clients[c].target > 0 && clients[o].target > 0
      ==> HasRecord(starts, clients[c].account)
  }

  /** With lone the clients are Unshared, and the values add up. Everything else
      holds whoever shares what. */
  ghost predicate Inv(w: World, starts: seq<Option<int>>, lone: bool) {
    && Sane(w.disk)
    && LogOk(w.disk, w.log, starts, lone)
    && (w.lock.Some? ==> w.lock.value.0 < |w.clients| && w.lock.value.1 > 0)
    && (forall c :: 0 <= c < |w.clients| ==> ClientOk(w.disk, w.log, lone, Holds(w.lock, c), w.clients[c]))
    && (forall a: nat :: Count(w.log, a) == Initial(starts, a) + Successes(w.clients, a))
    && (lone ==> Unshared(w.clients, starts))
  }

  // ----- small facts -----

  lemma EncodedBalance(v: int, off: nat, bits: nat)
    ensures Balance(Some(Record(EncodeInteger(v), off, bits))) == v
  {
    TokenParser.OneNumber(v);
    hide TokenParser.NumbersIn, EncodeInteger;
  }

  lemma BlobNonempty(v: int)
    ensures |Blob(v)| > 0 && EncodeInteger(v) != []
    ensures |Blob(v)| == ByteLength(EntryOf(Version(0, 0, v)).bits)
  {
    hide Pack;
    PackLength(EncodeInteger(v));
  }

  /** A whole version, and only that, is what a reader gets through its entry. */
  lemma FetchVersion(d: Disk, v: Version)
    requires Stored(d, v)
    ensures Fetch(d, EntryOf(v)) == Some(Record(EncodeInteger(v.value), v.off, EntryOf(v).bits))
    ensures Balance(Fetch(d, EntryOf(v))) == v.value
  {
    hide Pack, Fetch, EncodeInteger, Balance;
    BlobNonempty(v.value);
    FetchPacked(d, v.off, EncodeInteger(v.value));
    EncodedBalance(v.value, v.off, EntryOf(v).bits);
  }

  lemma FetchNothing(d: Disk)
    ensures Fetch(d, NOTHING) == None && Balance(None) == 0
  {
  }

  /** Versions at one offset are one version: no entry can come back. */
  lemma OneVersionPerOffset(d: Disk, log: seq<Version>, starts: seq<Option<int>>, lone: bool, v: Version, u: Version)
    requires LogOk(d, log, starts, lone) && v in log && u in log && v.off == u.off
    ensures v == u
  {
    hide Blob, Count, Latest, Stored;
    BlobNonempty(v.value);
    BlobNonempty(u.value);
    var i :| 0 <= i < |log| && log[i] == v;
    var j :| 0 <= j < |log| && log[j] == u;
    assert !(i < j) && !(j < i);
  }

  lemma {:induction false} LatestIn(log: seq<Version>, a: nat)
    ensures Latest(log, a).Some? ==> Latest(log, a).value in log && Latest(log, a).value.rid == a
  {
    if log != [] && log[|log| - 1].rid != a {
      LatestIn(log[..|log| - 1], a);
    }
  }

  lemma LatestPush(log: seq<Version>, v: Version, a: nat)
    ensures Latest(log + [v], a) == if v.rid == a then Some(v) else Latest(log, a)
    ensures Count(log + [v], a) == Count(log, a) + (if v.rid == a then 1 else 0)
  {
    assert (log + [v])[..|log|] == log;
  }

  lemma {:induction false} InLatest(log: seq<Version>, v: Version)
    requires v in log
    ensures Latest(log, v.rid).Some?
  {
    var n := |log| - 1;
    if log[n].rid != v.rid {
      InLatest(log[..n], v);
    }
  }

  lemma {:induction false} CountZero(log: seq<Version>, a: nat)
    ensures Count(log, a) == 0 <==> Latest(log, a).None?
  {
    if log != [] {
      CountZero(log[..|log| - 1], a);
    }
  }

  /** The value of the latest version counts the versions before it. */
  lemma {:induction false} LatestValue(log: seq<Version>, starts: seq<Option<int>>, a: nat)
    requires Latest(log, a).Some? && Valued(log, starts)
    ensures Latest(log, a).value.value == StartOf(starts, a) - Initial(starts, a) + Count(log, a)
  {
    var k := |log| - 1;
    var init := log[..k];
    if log[k].rid != a {
      ValuedPrefix(log, starts, k);
      LatestValue(init, starts, a);
    }
  }

  lemma ValuedPrefix(log: seq<Version>, starts: seq<Option<int>>, n: nat)
    requires Valued(log, starts) && n <= |log|
    ensures Valued(log[..n], starts)
  {
    hide Count, StartOf, Initial;
    var init := log[..n];
    forall i | 0 <= i < n
      ensures init[i].value
              == StartOf(starts, init[i].rid) + 1 - Initial(starts, init[i].rid) + Count(init[..i], init[i].rid)
    {
      assert init[..i] == log[..i] && init[i] == log[i];
    }
  }

  lemma {:induction false} SuccessesUpdate(clients: seq<Client>, c: nat, k: Client, a: nat)
    requires c < |clients| && k.account == clients[c].account
    ensures Successes(clients[c := k], a)
         == Successes(clients, a)
            + (if k.account == a then k.done + Landed(k.pc) - clients[c].done - Landed(clients[c].pc) else 0)
  {
    var n := |clients| - 1;
    var after := clients[c := k];
    if c < n {
      assert after[..n] == clients[..n][c := k];
      SuccessesUpdate(clients[..n], c, k, a);
    } else {
      assert after[..n] == clients[..n];
    }
  }

  // ----- step by step -----

  /** A step that touches only its own client. */
  lemma Quiet(w: World, c: nat, k: Client, starts: seq<Option<int>>, lone: bool)
    requires Inv(w, starts, lone) && c < |w.clients|
    requires k.account == w.clients[c].account && k.target == w.clients[c].target
    requires k.done + Landed(k.pc) == w.clients[c].done + Landed(w.clients[c].pc)
    requires ClientOk(w.disk, w.log, lone, Holds(w.lock, c), k)
    ensures Inv(w.(clients := w.clients[c := k]), starts, lone)
  {
    hide Sane, LogOk, ClientOk, Count, Successes, HasRecord;
    forall a: nat ensures Count(w.log, a) == Initial(starts, a) + Successes(w.clients[c := k], a) {
      SuccessesUpdate(w.clients, c, k, a);
    }
  }

  /** The log is as it was, or has one more version of account a. */
  predicate Grown(log: seq<Version>, log': seq<Version>, a: nat) {
    log' == log || (log' != [] && log'[..|log'| - 1] == log && log'[|log'| - 1].rid == a)
  }

  lemma GrownKeeps(log: seq<Version>, log': seq<Version>, a: nat)
    requires Grown(log, log', a)
    ensures forall v :: v in log ==> v in log'
    ensures forall b: nat :: b != a ==> Latest(log', b) == Latest(log, b)
  {
  }

  /** Without the lock a client depends on nothing but which versions there were,
      and on there being none yet if it saw none. */
  lemma OtherClient(d: Disk, log: seq<Version>, d': Disk, log': seq<Version>, lone: bool, k: Client)
    requires ClientOk(d, log, lone, 0, k)
    requires forall v :: v in log ==> v in log'
    requires lone && !k.pc.Loop? && Latest(log, k.account).None? ==> Latest(log', k.account).None?
    ensures ClientOk(d', log', lone, 0, k)
  {
    hide EntryOf, Latest;
  }

  /** An account without a version has no record, so a lone client is alone on it. */
  lemma StillNone(w: World, log': seq<Version>, c: nat, o: nat, starts: seq<Option<int>>, lone: bool)
    requires Inv(w, starts, lone) && lone && c < |w.clients| && o < |w.clients| && c != o
    requires Grown(w.log, log', w.clients[c].account) && (log' != w.log ==> w.clients[c].target > 0)
    requires !w.clients[o].pc.Loop? && Latest(w.log, w.clients[o].account).None?
    ensures Latest(log', w.clients[o].account).None?
  {
    GrownKeeps(w.log, log', w.clients[c].account);
    assert w.clients[o].target > 0 by {
      assert ClientOk(w.disk, w.log, lone, Holds(w.lock, o), w.clients[o]);
      hide Inv, Sane, LogOk, Expected, Seen, Newest, Stored, Latest;
    }
    assert Begun(w.log, starts);
    hide Sane, Valued, Ordered, Pointing, ClientOk, Latest, HasRecord, Successes, Count;
  }

  /** A step of the client that has the lock, is taking it or is giving it back. */
  lemma Alone(w: World, w': World, c: nat, k: Client, starts: seq<Option<int>>, lone: bool)
    requires Inv(w, starts, lone) && c < |w.clients|
    requires k.account == w.clients[c].account && k.target == w.clients[c].target
    requires w'.clients == w.clients[c := k]
    requires forall o :: 0 <= o < |w.clients| && o != c ==> Holds(w.lock, o) == 0 && Holds(w'.lock, o) == 0
    requires w'.lock.Some? ==> w'.lock.value.0 < |w.clients| && w'.lock.value.1 > 0
    requires Sane(w'.disk) && LogOk(w'.disk, w'.log, starts, lone)
    requires Grown(w.log, w'.log, k.account) && (w'.log != w.log ==> k.target > 0)
    requires ClientOk(w'.disk, w'.log, lone, Holds(w'.lock, c), k)
    requires forall a: nat ::
      Count(w'.log, a) - Count(w.log, a)
      == (if k.account == a then k.done + Landed(k.pc) - w.clients[c].done - Landed(w.clients[c].pc) else 0)
    ensures Inv(w', starts, lone)
  {
    hide Sane, LogOk, ClientOk, Count, Successes, Holds, Latest, Grown, HasRecord;
    GrownKeeps(w.log, w'.log, k.account);
    forall o | 0 <= o < |w'.clients|
      ensures ClientOk(w'.disk, w'.log, lone, Holds(w'.lock, o), w'.clients[o])
    {
      if o != c {
        var other := w.clients[o];
        if lone && !other.pc.Loop? && Latest(w.log, other.account).None? {
          StillNone(w, w'.log, c, o, starts, lone);
        }
        OtherClient(w.disk, w.log, w'.disk, w'.log, lone, other);
      }
    }
    forall a: nat ensures Count(w'.log, a) == Initial(starts, a) + Successes(w'.clients, a) {
      SuccessesUpdate(w.clients, c, k, a);
    }
  }

  lemma SameLog(log: seq<Version>, a: nat)
    ensures Grown(log, log, a)
  {
  }

  /** What the invariant says about one client, and about the rest while it has the lock. */
  lemma Mine(w: World, c: nat, starts: seq<Option<int>>, lone: bool)
    requires Inv(w, starts, lone) && c < |w.clients|
    ensures Sane(w.disk) && HEADER <= w.disk.end <= |w.disk.data| && LogOk(w.disk, w.log, starts, lone)
    ensures ClientOk(w.disk, w.log, lone, Holds(w.lock, c), w.clients[c])
    ensures w.lock.None? || Holds(w.lock, c) > 0 ==>
      forall o :: 0 <= o < |w.clients| && o != c ==> Holds(w.lock, o) == 0
  {
    hide LogOk, ClientOk, Fits, Inside, Unshared;
  }

  lemma StepLoop(w: World, c: nat, starts: seq<Option<int>>, lone: bool)
    requires Inv(w, starts, lone) && c < |w.clients| && w.clients[c].pc.Loop?
    ensures Inv(Next(w, c), starts, lone)
  {
    var k := w.clients[c];
    if k.done < k.target {
      var k' := k.(pc := Got(EntryAt(w.disk, k.account)));
      LoopOk(w, c, starts, lone);
      assert Next(w, c) == w.(clients := w.clients[c := k']) by {
        hide Inv;
      }
      hide *;
      Quiet(w, c, k', starts, lone);
    }
  }

  lemma LoopOk(w: World, c: nat, starts: seq<Option<int>>, lone: bool)
    requires Inv(w, starts, lone) && c < |w.clients| && w.clients[c].pc.Loop? && w.clients[c].done < w.clients[c].target
    ensures var k := w.clients[c];
            var k' := k.(pc := Got(EntryAt(w.disk, k.account)));
            ClientOk(w.disk, w.log, lone, Holds(w.lock, c), k') && Landed(k'.pc) == Landed(k.pc)
  {
    hide *;
    Mine(w, c, starts, lone);
    LatestOk(w.disk, w.log, starts, lone, w.clients[c].account);
    GotStart(w.disk, w.log, lone, Holds(w.lock, c), w.clients[c]);
  }

  lemma GotStart(d: Disk, log: seq<Version>, lone: bool, holds: nat, k: Client)
    requires ClientOk(d, log, lone, holds, k) && k.pc.Loop? && k.done < k.target
    requires EntryAt(d, k.account) == Current(log, k.account)
    requires Latest(log, k.account).Some? ==>
      Latest(log, k.account).value in log && Latest(log, k.account).value.rid == k.account
    ensures var k' := k.(pc := Got(EntryAt(d, k.account)));
            ClientOk(d, log, lone, holds, k') && Landed(k'.pc) == Landed(k.pc)
  {
    hide EncodeInteger, EntryAt, Latest;
  }

  lemma StepGot(w: World, c: nat, starts: seq<Option<int>>, lone: bool)
    requires Inv(w, starts, lone) && c < |w.clients| && w.clients[c].pc.Got?
    ensures Inv(Next(w, c), starts, lone)
  {
    hide *;
    var k := w.clients[c];
    Mine(w, c, starts, lone);
    if k.pc.entry == NOTHING {
      FetchNothing(w.disk);
      NextGotNone(w, c);
      ReadyNone(w.disk, w.log, lone, Holds(w.lock, c), k);
      Quiet(w, c, k.(pc := Ready(1, None)), starts, lone);
    } else {
      var v := SeenVersion(w.disk, w.log, lone, Holds(w.lock, c), k);
      StoredIn(w.disk, w.log, starts, lone, v);
      FetchVersion(w.disk, v);
      NextGot(w, c, v);
      ReadyOk(w.disk, w.log, lone, Holds(w.lock, c), k, v);
      Quiet(w, c, k.(pc := Ready(v.value + 1, Some((v.off, EntryOf(v).bits)))), starts, lone);
    }
  }

  lemma NextGot(w: World, c: nat, v: Version)
    requires c < |w.clients| && w.clients[c].pc.Got?
    requires var r := Fetch(w.disk, w.clients[c].pc.entry);
             r == Some(Record(EncodeInteger(v.value), v.off, EntryOf(v).bits)) && Balance(r) == v.value
    ensures var k := w.clients[c];
            Next(w, c) == w.(clients := w.clients[c := k.(pc := Ready(v.value + 1, Some((v.off, EntryOf(v).bits))))])
  {
    hide Fetch, Balance, EncodeInteger, EntryOf;
  }

  lemma NextGotNone(w: World, c: nat)
    requires c < |w.clients| && w.clients[c].pc.Got? && Fetch(w.disk, w.clients[c].pc.entry) == None
    ensures Next(w, c) == w.(clients := w.clients[c := w.clients[c].(pc := Ready(1, None))])
  {
    hide Fetch;
  }

  lemma ReadyNone(d: Disk, log: seq<Version>, lone: bool, holds: nat, k: Client)
    requires ClientOk(d, log, lone, holds, k) && k.pc.Got? && k.pc.entry == NOTHING
    ensures var k' := k.(pc := Ready(1, None));
            ClientOk(d, log, lone, holds, k') && Landed(k'.pc) == Landed(k.pc)
  {
    hide Latest;
  }

  lemma SeenVersion(d: Disk, log: seq<Version>, lone: bool, holds: nat, k: Client) returns (v: Version)
    requires ClientOk(d, log, lone, holds, k) && k.pc.Got? && k.pc.entry != NOTHING
    ensures v in log && v.rid == k.account && EntryOf(v) == k.pc.entry
  {
    hide EntryOf;
    v :| v in log && v.rid == k.account && EntryOf(v) == k.pc.entry;
  }

  lemma ReadyOk(d: Disk, log: seq<Version>, lone: bool, holds: nat, k: Client, v: Version)
    requires ClientOk(d, log, lone, holds, k) && k.pc.Got? && v in log && v.rid == k.account
    ensures var k' := k.(pc := Ready(v.value + 1, Some((v.off, EntryOf(v).bits))));
            ClientOk(d, log, lone, holds, k') && Landed(k'.pc) == Landed(k.pc)
  {
    assert v == Version(k.account, v.off, v.value + 1 - 1);
    hide EncodeInteger;
  }

  lemma StoredIn(d: Disk, log: seq<Version>, starts: seq<Option<int>>, lone: bool, v: Version)
    requires LogOk(d, log, starts, lone) && v in log
    ensures Stored(d, v)
  {
    hide Stored, Count, Latest;
  }

  lemma LatestOk(d: Disk, log: seq<Version>, starts: seq<Option<int>>, lone: bool, a: nat)
    requires LogOk(d, log, starts, lone)
    ensures EntryAt(d, a) == Current(log, a)
    ensures Latest(log, a).Some? ==> Latest(log, a).value in log && Latest(log, a).value.rid == a
  {
    hide Stored, Count, Current;
    LatestIn(log, a);
  }

  lemma StepReady(w: World, c: nat, starts: seq<Option<int>>, lone: bool)
    requires Inv(w, starts, lone) && c < |w.clients| && w.clients[c].pc.Ready?
    ensures Inv(Next(w, c), starts, lone)
  {
    hide *;
    Mine(w, c, starts, lone);
    var k' := NextReady(w, c, lone);
    if w.lock.None? {
      var w' := w.(lock := Some((c, 1)), clients := w.clients[c := k']);
      TookLock(w, w', c);
      SameLog(w.log, k'.account);
      Alone(w, w', c, k', starts, lone);
    }
  }

  lemma NextReady(w: World, c: nat, lone: bool) returns (k': Client)
    requires c < |w.clients| && w.clients[c].pc.Ready?
    requires ClientOk(w.disk, w.log, lone, Holds(w.lock, c), w.clients[c])
    ensures var k := w.clients[c];
            && k'.account == k.account && k'.target == k.target
            && ClientOk(w.disk, w.log, lone, 1, k') && k'.done + Landed(k'.pc) == k.done + Landed(k.pc)
    ensures Next(w, c) == if w.lock.None? then w.(lock := Some((c, 1)), clients := w.clients[c := k']) else w
  {
    hide Latest;
    var k := w.clients[c];
    k' := k.(pc := if k.pc.was.Some? then Held(k.pc.value, k.pc.was.value) else Writing(k.pc.value));
  }

  lemma TookLock(w: World, w': World, c: nat)
    requires w'.lock.Some? && w'.lock.value.0 == c
    ensures Holds(w'.lock, c) == w'.lock.value.1
    ensures forall o :: 0 <= o < |w.clients| && o != c ==> Holds(w'.lock, o) == 0
  {
  }

  lemma StepHeld(w: World, c: nat, starts: seq<Option<int>>, lone: bool)
    requires Inv(w, starts, lone) && c < |w.clients| && w.clients[c].pc.Held?
    ensures Inv(Next(w, c), starts, lone)
  {
    hide *;
    var k := w.clients[c];
    var e := EntryAt(w.disk, k.account);
    Mine(w, c, starts, lone);
    if e.off == k.pc.place.0 && e.bits == k.pc.place.1 {
      HeldNewest(w.disk, w.log, starts, lone, Holds(w.lock, c), k);
      NextHeld(w, c);
      Quiet(w, c, k.(pc := Entering(k.pc.value)), starts, lone);
    } else {
      HeldStale(w.disk, w.log, lone, Holds(w.lock, c), k);
      NextHeld(w, c);
      Quiet(w, c, k.(pc := Leaving(false)), starts, lone);
    }
  }

  lemma NextHeld(w: World, c: nat)
    requires c < |w.clients| && w.clients[c].pc.Held?
    ensures var k := w.clients[c];
            var e := EntryAt(w.disk, k.account);
            var same := e.off == k.pc.place.0 && e.bits == k.pc.place.1;
            Next(w, c) == w.(clients := w.clients[c := k.(pc := if same then Entering(k.pc.value) else Leaving(false))])
  {
    hide EntryAt;
  }

  /** Finding the entry unchanged means no version came in between. */
  lemma HeldNewest(d: Disk, log: seq<Version>, starts: seq<Option<int>>, lone: bool, holds: nat, k: Client)
    requires LogOk(d, log, starts, lone) && ClientOk(d, log, lone, holds, k) && k.pc.Held?
    requires EntryAt(d, k.account).off == k.pc.place.0
    ensures Latest(log, k.account) == Some(Version(k.account, k.pc.place.0, k.pc.value - 1))
    ensures var k' := k.(pc := Entering(k.pc.value));
            ClientOk(d, log, lone, holds, k') && Landed(k'.pc) == Landed(k.pc)
  {
    hide LogOk, Latest, EncodeInteger, EntryAt;
    var read := Version(k.account, k.pc.place.0, k.pc.value - 1);
    LatestOk(d, log, starts, lone, k.account);
    InLatest(log, read);
    OneVersionPerOffset(d, log, starts, lone, Latest(log, k.account).value, read);
  }

  lemma HeldStale(d: Disk, log: seq<Version>, lone: bool, holds: nat, k: Client)
    requires ClientOk(d, log, lone, holds, k) && k.pc.Held?
    ensures var k' := k.(pc := Leaving(false));
            ClientOk(d, log, lone, holds, k') && Landed(k'.pc) == Landed(k.pc)
  {
  }

  lemma StepEntering(w: World, c: nat, starts: seq<Option<int>>, lone: bool)
    requires Inv(w, starts, lone) && c < |w.clients| && w.clients[c].pc.Entering?
    ensures Inv(Next(w, c), starts, lone)
  {
    var k := w.clients[c];
    Mine(w, c, starts, lone);
    var k' := k.(pc := Writing(k.pc.value));
    var w' := w.(lock := Some((c, 2)), clients := w.clients[c := k']);
    assert Next(w, c) == w' && ClientOk(w.disk, w.log, lone, 2, k') && Landed(k'.pc) == Landed(k.pc)
           && Holds(w.lock, c) > 0 by {
      hide Inv, Sane, LogOk;
    }
    SameLog(w.log, k.account);
    TookLock(w, w', c);
    hide *;
    Alone(w, w', c, k', starts, lone);
  }

  /** New bytes past the used part leave the versions where they are. */
  lemma LogFrame(d: Disk, d': Disk, log: seq<Version>, starts: seq<Option<int>>, lone: bool)
    requires LogOk(d, log, starts, lone) && d.end <= d'.end <= |d'.data| && d'.alloc == d.alloc
    requires d.end <= |d.data| && d'.data[..d.end] == d.data[..d.end]
    ensures LogOk(d', log, starts, lone)
  {
    hide Count, Latest, Blob, Current;
    forall v | v in log ensures Stored(d', v) {
      assert Stored(d, v);
      assert d.data[v.off..Past(v)] == d.data[..d.end][v.off..Past(v)];
      assert d'.data[v.off..Past(v)] == d'.data[..d.end][v.off..Past(v)];
    }
  }

  lemma StepWriting(w: World, c: nat, starts: seq<Option<int>>, lone: bool)
    requires Inv(w, starts, lone) && c < |w.clients| && w.clients[c].pc.Writing?
    ensures Inv(Next(w, c), starts, lone)
  {
    var k := w.clients[c];
    var value := k.pc.value;
    Mine(w, c, starts, lone);
    WritingOk(w.disk, w.log, starts, lone, Holds(w.lock, c), k);
    var d' := AppendData(w.disk, EncodeInteger(value));
    var k' := k.(pc := Appended(value, w.disk.end));
    var w' := w.(disk := d', clients := w.clients[c := k']);
    assert Next(w, c) == w' by {
      hide Inv, Sane, LogOk, ClientOk, AppendData, EncodeInteger;
    }
    HolderHasLock(w, c, starts, lone);
    SameLog(w.log, k.account);
    hide *;
    Alone(w, w', c, k', starts, lone);
  }

  lemma HolderHasLock(w: World, c: nat, starts: seq<Option<int>>, lone: bool)
    requires Inv(w, starts, lone) && c < |w.clients| && Holds(w.lock, c) > 0
    ensures w.lock.Some? && w.lock.value.0 == c && c < |w.clients| && w.lock.value.1 == Holds(w.lock, c)
  {
    hide Sane, LogOk, ClientOk;
  }

  lemma WritingOk(d: Disk, log: seq<Version>, starts: seq<Option<int>>, lone: bool, holds: nat, k: Client)
    requires Sane(d) && LogOk(d, log, starts, lone) && ClientOk(d, log, lone, holds, k) && k.pc.Writing?
    ensures var d' := AppendData(d, EncodeInteger(k.pc.value));
            var k' := k.(pc := Appended(k.pc.value, d.end));
            && Sane(d') && LogOk(d', log, starts, lone) && ClientOk(d', log, lone, holds, k')
            && Landed(k'.pc) == Landed(k.pc)
    ensures holds > 0
  {
    AppendFacts(d, EncodeInteger(k.pc.value));
    var d' := AppendData(d, EncodeInteger(k.pc.value));
    assert d'.alloc == d.alloc && d'.end == d.end;
    hide Sane, AppendData, Pack, EncodeInteger;
    LogFrame(d, d', log, starts, lone);
    hide LogOk, Latest;
  }

  lemma StepAppended(w: World, c: nat, starts: seq<Option<int>>, lone: bool)
    requires Inv(w, starts, lone) && c < |w.clients| && w.clients[c].pc.Appended?
    ensures Inv(Next(w, c), starts, lone)
  {
    var k := w.clients[c];
    var value, off := k.pc.value, k.pc.off;
    Mine(w, c, starts, lone);
    AppendedOk(w.disk, w.log, starts, lone, Holds(w.lock, c), k);
    var d' := MoveEnd(w.disk, EncodeInteger(value));
    var k' := k.(pc := Ended(value, off));
    var w' := w.(disk := d', clients := w.clients[c := k']);
    assert Next(w, c) == w' by {
      hide Inv, Sane, LogOk, ClientOk, MoveEnd, EncodeInteger;
    }
    HolderHasLock(w, c, starts, lone);
    SameLog(w.log, k.account);
    hide *;
    Alone(w, w', c, k', starts, lone);
  }

  lemma AppendedOk(d: Disk, log: seq<Version>, starts: seq<Option<int>>, lone: bool, holds: nat, k: Client)
    requires Sane(d) && LogOk(d, log, starts, lone) && ClientOk(d, log, lone, holds, k) && k.pc.Appended?
    ensures var d' := MoveEnd(d, EncodeInteger(k.pc.value));
            var k' := k.(pc := Ended(k.pc.value, k.pc.off));
            && Sane(d') && LogOk(d', log, starts, lone) && ClientOk(d', log, lone, holds, k')
            && Landed(k'.pc) == Landed(k.pc)
    ensures holds > 0
  {
    hide *;
    var d' := MoveEnd(d, EncodeInteger(k.pc.value));
    AppendedRoom(d, log, lone, holds, k);
    MovedSane(d, EncodeInteger(k.pc.value));
    LogFrame(d, d', log, starts, lone);
    forall v | v in log ensures Past(v) <= d.end {
      StoredIn(d, log, starts, lone, v);
      StoredPast(d, v);
    }
    SaneHeader(d);
    EndedStart(d, log, lone, holds, k);
  }

  lemma AppendedRoom(d: Disk, log: seq<Version>, lone: bool, holds: nat, k: Client)
    requires ClientOk(d, log, lone, holds, k) && k.pc.Appended?
    ensures d.end + |Pack(EncodeInteger(k.pc.value))| <= |d.data|
  {
    hide Pack, EncodeInteger;
  }

  lemma MovedSane(d: Disk, tokens: seq<Token>)
    requires Sane(d) && d.end + |Pack(tokens)| <= |d.data|
    ensures var d' := MoveEnd(d, tokens);
            && Sane(d') && d.end <= d'.end <= |d'.data| && d'.alloc == d.alloc && d'.data == d.data
  {
    hide Pack, Fits;
  }

  lemma StoredPast(d: Disk, v: Version)
    requires Stored(d, v)
    ensures Past(v) <= d.end
  {
  }

  lemma EndedStart(d: Disk, log: seq<Version>, lone: bool, holds: nat, k: Client)
    requires HEADER <= d.end && ClientOk(d, log, lone, holds, k) && k.pc.Appended?
    requires forall v :: v in log ==> Past(v) <= d.end
    ensures var d' := MoveEnd(d, EncodeInteger(k.pc.value));
            var k' := k.(pc := Ended(k.pc.value, k.pc.off));
            ClientOk(d', log, lone, holds, k') && Landed(k'.pc) == Landed(k.pc)
    ensures holds > 0
  {
    hide Pack, EncodeInteger, Latest;
  }

  lemma SaneHeader(d: Disk)
    requires Sane(d)
    ensures HEADER <= d.end
  {
  }

  lemma StepEnded(w: World, c: nat, starts: seq<Option<int>>, lone: bool)
    requires Inv(w, starts, lone) && c < |w.clients| && w.clients[c].pc.Ended?
    ensures Inv(Next(w, c), starts, lone)
  {
    var k := w.clients[c];
    var value, off := k.pc.value, k.pc.off;
    Mine(w, c, starts, lone);
    EndedOk(w.disk, w.log, starts, lone, Holds(w.lock, c), k);
    var d' := Point(w.disk, k.account, off, EncodeInteger(value));
    var k' := k.(pc := Pointed(value));
    var v := Version(k.account, off, value);
    var log' := w.log + [v];
    var w' := w.(disk := d', log := log', clients := w.clients[c := k']);
    assert Next(w, c) == w' by {
      hide Inv, Sane, LogOk, ClientOk, Point, EncodeInteger;
    }
    HolderHasLock(w, c, starts, lone);
    forall a: nat
      ensures Count(log', a) == Count(w.log, a) + (if k.account == a then 1 else 0)
    {
      LatestPush(w.log, v, a);
    }
    assert Landed(k'.pc) == 1 && Landed(k.pc) == 0;
    PushGrows(w.log, v);
    hide *;
    Alone(w, w', c, k', starts, lone);
  }

  lemma PushGrows(log: seq<Version>, v: Version)
    ensures Grown(log, log + [v], v.rid)
  {
  }

  lemma EndedOk(d: Disk, log: seq<Version>, starts: seq<Option<int>>, lone: bool, holds: nat, k: Client)
    requires Sane(d) && LogOk(d, log, starts, lone) && ClientOk(d, log, lone, holds, k) && k.pc.Ended?
    ensures var v := Version(k.account, k.pc.off, k.pc.value);
            var d' := Point(d, k.account, k.pc.off, EncodeInteger(k.pc.value));
            var k' := k.(pc := Pointed(k.pc.value));
            && Sane(d') && LogOk(d', log + [v], starts, lone) && ClientOk(d', log + [v], lone, holds, k')
    ensures holds > 0 && k.target > 0
  {
    hide *;
    EndedFacts(d, log, lone, holds, k);
    BlobNonempty(k.pc.value);
    var v := Version(k.account, k.pc.off, k.pc.value);
    PointSane(d, v);
    LogPush(d, Point(d, k.account, k.pc.off, EncodeInteger(k.pc.value)), log, starts, lone, v);
  }

  lemma EndedFacts(d: Disk, log: seq<Version>, lone: bool, holds: nat, k: Client)
    requires ClientOk(d, log, lone, holds, k) && k.pc.Ended?
    ensures var v := Version(k.account, k.pc.off, k.pc.value);
            var d' := Point(d, k.account, k.pc.off, EncodeInteger(k.pc.value));
            && (lone ==> Newest(log, v.rid, v.value)) && Stored(d, v)
            && (forall u :: u in log ==> Past(u) <= v.off)
            && d' == d.(alloc := SetEntry(d.alloc, v.rid, EntryOf(v)))
            && ClientOk(d', log + [v], lone, holds, k.(pc := Pointed(k.pc.value)))
    ensures holds > 0 && k.target > 0
  {
    hide EncodeInteger, Stored, Newest;
  }

  lemma PointSane(d: Disk, v: Version)
    requires Sane(d) && Stored(d, v)
    ensures Sane(d.(alloc := SetEntry(d.alloc, v.rid, EntryOf(v))))
  {
    BlobNonempty(v.value);
    hide Pack, EncodeInteger, Fits;
  }

  lemma LogPush(d: Disk, d': Disk, log: seq<Version>, starts: seq<Option<int>>, lone: bool, v: Version)
    requires LogOk(d, log, starts, lone) && (lone ==> Newest(log, v.rid, v.value))
    requires Stored(d, v) && forall u :: u in log ==> Past(u) <= v.off
    requires d' == d.(alloc := SetEntry(d.alloc, v.rid, EntryOf(v)))
    ensures LogOk(d', log + [v], starts, lone)
  {
    hide Valued, Pointing, Stored, Ordered, Newest, HasRecord, Latest;
    if lone {
      ValuedPush(log, starts, v);
    }
    BegunPush(log, starts, v);
    PointingPush(d, d', log, v);
    OrderedPush(log, v);
    forall u | u in log + [v] ensures Stored(d', u) {
      StoredSame(d, d', u);
    }
  }

  lemma StoredSame(d: Disk, d': Disk, v: Version)
    requires Stored(d, v) && d'.data == d.data && d'.end == d.end
    ensures Stored(d', v)
  {
  }

  lemma OrderedPush(log: seq<Version>, v: Version)
    requires Ordered(log) && forall u :: u in log ==> Past(u) <= v.off
    ensures Ordered(log + [v])
  {
    hide Past;
  }

  lemma ValuedPush(log: seq<Version>, starts: seq<Option<int>>, v: Version)
    requires Valued(log, starts) && Begun(log, starts) && Newest(log, v.rid, v.value)
    ensures Valued(log + [v], starts)
  {
    if Latest(log, v.rid).Some? {
      LatestValue(log, starts, v.rid);
    } else {
      CountZero(log, v.rid);
    }
    ValuedSnoc(log, starts, v);
  }

  lemma ValuedSnoc(log: seq<Version>, starts: seq<Option<int>>, v: Version)
    requires Valued(log, starts)
    requires v.value == StartOf(starts, v.rid) + 1 - Initial(starts, v.rid) + Count(log, v.rid)
    ensures Valued(log + [v], starts)
  {
    var log' := log + [v];
    hide Count, StartOf, Initial;
    forall i | 0 <= i < |log'|
      ensures log'[i].value
              == StartOf(starts, log'[i].rid) + 1 - Initial(starts, log'[i].rid) + Count(log'[..i], log'[i].rid)
    {
      assert log'[..i] == log[..i];
      assert log[..|log|] == log;
    }
  }

  lemma BegunPush(log: seq<Version>, starts: seq<Option<int>>, v: Version)
    requires forall a: nat :: HasRecord(starts, a) ==> a == v.rid || Latest(log, a).Some?
    ensures Begun(log + [v], starts)
  {
    hide Latest, HasRecord;
    forall a: nat | HasRecord(starts, a) ensures Latest(log + [v], a).Some? {
      LatestPush(log, v, a);
    }
  }

  lemma PointingPush(d: Disk, d': Disk, log: seq<Version>, v: Version)
    requires Pointing(d, log)
    requires d' == d.(alloc := SetEntry(d.alloc, v.rid, EntryOf(v)))
    ensures Pointing(d', log + [v])
  {
    hide Latest, EntryOf;
    forall a: nat ensures EntryAt(d', a) == Current(log + [v], a) {
      LatestPush(log, v, a);
      assert EntryAt(d, a) == Current(log, a);
    }
  }

  lemma StepPointed(w: World, c: nat, starts: seq<Option<int>>, lone: bool)
    requires Inv(w, starts, lone) && c < |w.clients| && w.clients[c].pc.Pointed?
    ensures Inv(Next(w, c), starts, lone)
  {
    hide *;
    Mine(w, c, starts, lone);
    PointedHolds(w, c, lone);
    HolderHasLock(w, c, starts, lone);
    var k' := NextPointed(w, c, lone);
    SameLog(w.log, k'.account);
    Alone(w, Next(w, c), c, k', starts, lone);
  }

  lemma PointedHolds(w: World, c: nat, lone: bool)
    requires c < |w.clients| && w.clients[c].pc.Pointed?
    requires ClientOk(w.disk, w.log, lone, Holds(w.lock, c), w.clients[c])
    ensures 1 <= Holds(w.lock, c) <= 2
  {
    hide Holds;
  }

  lemma NextPointed(w: World, c: nat, lone: bool) returns (k': Client)
    requires c < |w.clients| && w.clients[c].pc.Pointed?
    requires ClientOk(w.disk, w.log, lone, Holds(w.lock, c), w.clients[c])
    requires w.lock.Some? && w.lock.value.0 == c && w.lock.value.1 == Holds(w.lock, c)
    ensures var k, w' := w.clients[c], Next(w, c);
            && k'.account == k.account && k'.target == k.target && k'.done + Landed(k'.pc) == k.done + Landed(k.pc)
            && w'.clients == w.clients[c := k'] && w'.disk == w.disk && w'.log == w.log
            && ClientOk(w.disk, w.log, lone, Holds(w'.lock, c), k')
            && (w'.lock.Some? ==> w'.lock.value.0 == c && w'.lock.value.1 > 0)
            && forall o :: 0 <= o < |w.clients| && o != c ==> Holds(w'.lock, o) == 0
  {
    k' := Next(w, c).clients[c];
  }

  lemma StepLeaving(w: World, c: nat, starts: seq<Option<int>>, lone: bool)
    requires Inv(w, starts, lone) && c < |w.clients| && w.clients[c].pc.Leaving?
    ensures Inv(Next(w, c), starts, lone)
  {
    var k := w.clients[c];
    Mine(w, c, starts, lone);
    assert Holds(w.lock, c) == 1 by {
      hide Inv, Sane, LogOk;
    }
    HolderHasLock(w, c, starts, lone);
    var k' := k.(pc := Loop, done := if k.pc.ok then k.done + 1 else k.done);
    var w' := w.(lock := None, clients := w.clients[c := k']);
    assert Next(w, c) == w' && ClientOk(w.disk, w.log, lone, 0, k')
           && k'.done + Landed(k'.pc) == k.done + Landed(k.pc) by {
      hide Inv, Sane, LogOk;
    }
    assert forall o :: 0 <= o < |w.clients| ==> Holds(w'.lock, o) == 0;
    SameLog(w.log, k.account);
    hide *;
    Alone(w, w', c, k', starts, lone);
  }

  lemma Step(w: World, c: nat, starts: seq<Option<int>>, lone: bool)
    requires Inv(w, starts, lone)
    ensures Inv(Next(w, c), starts, lone)
  {
    hide *;
    if c < |w.clients| {
      match w.clients[c].pc
      case Loop => StepLoop(w, c, starts, lone);
      case Got(_) => StepGot(w, c, starts, lone);
      case Ready(_, _) => StepReady(w, c, starts, lone);
      case Held(_, _) => StepHeld(w, c, starts, lone);
      case Entering(_) => StepEntering(w, c, starts, lone);
      case Writing(_) => StepWriting(w, c, starts, lone);
      case Appended(_, _) => StepAppended(w, c, starts, lone);
      case Ended(_, _) => StepEnded(w, c, starts, lone);
      case Pointed(_) => StepPointed(w, c, starts, lone);
      case Leaving(_) => StepLeaving(w, c, starts, lone);
    } else {
      NoClient(w, c, starts, lone);
    }
  }

  lemma NoClient(w: World, c: nat, starts: seq<Option<int>>, lone: bool)
    requires Inv(w, starts, lone) && c >= |w.clients|
    ensures Next(w, c) == w
  {
  }

  // ----- whole runs -----

  function Run(w: World, schedule: seq<nat>): World
    decreases |schedule|
  {
    if schedule == [] then w else Run(Next(w, schedule[0]), schedule[1..])
  }

  /** The grid after one plain write for each account that has a start. */
  function SeedDisk(starts: seq<Option<int>>): Disk {
    if starts == [] then EMPTY
    else
      var n := |starts| - 1;
      var before := SeedDisk(starts[..n]);
      if starts[n].Some? then WriteRecord(before, n, EncodeInteger(starts[n].value)) else before
  }

  function SeedLog(starts: seq<Option<int>>): seq<Version> {
    if starts == [] then []
    else
      var n := |starts| - 1;
      var before := SeedLog(starts[..n]);
      if starts[n].Some? then before + [Version(n, SeedDisk(starts[..n]).end, starts[n].value)] else before
  }

  function Idle(jobs: seq<(nat, nat)>): seq<Client> {
    seq(|jobs|, i requires 0 <= i < |jobs| => Client(jobs[i].0, jobs[i].1, 0, Loop))
  }

  /** Some accounts have a record that says their start, the others have none; a job
      is an account and a number of deposits. */
  function Start(starts: seq<Option<int>>, jobs: seq<(nat, nat)>): World {
    World(SeedDisk(starts), None, Idle(jobs), SeedLog(starts))
  }

  /** At most one job with deposits to make for every account without a record. */
  predicate LoneUnseeded(starts: seq<Option<int>>, jobs: seq<(nat, nat)>) {
    forall i, j :: 0 <= i < |jobs| && 0 <= j < |jobs| && i != j
      && jobs[i].0 == jobs[j].0 && jobs[i].1 > 0 && jobs[j].1 > 0
      ==> HasRecord(starts, jobs[i].0)
  }

  lemma {:induction false} CountNone(log: seq<Version>, a: nat)
    requires forall v :: v in log ==> v.rid < a
    ensures Count(log, a) == 0
  {
    if log != [] {
      CountNone(log[..|log| - 1], a);
    }
  }

  lemma {:induction false} SeedCount(starts: seq<Option<int>>, a: nat)
    ensures Count(SeedLog(starts), a) == Initial(starts, a)
  {
    if starts != [] {
      var n := |starts| - 1;
      var before := SeedLog(starts[..n]);
      SeedRids(starts[..n]);
      SeedCount(starts[..n], a);
      if starts[n].Some? {
        LatestPush(before, Version(n, SeedDisk(starts[..n]).end, starts[n].value), a);
      }
    }
  }

  lemma {:induction false} SeedRids(starts: seq<Option<int>>)
    ensures forall v :: v in SeedLog(starts) ==> v.rid < |starts|
  {
    if starts != [] {
      SeedRids(starts[..|starts| - 1]);
    }
  }

  lemma {:induction false} Seeded(starts: seq<Option<int>>)
    ensures Sane(SeedDisk(starts)) && LogOk(SeedDisk(starts), SeedLog(starts), starts, true)
  {
    hide *;
    if starts == [] {
      SeedNone();
    } else {
      var n := |starts| - 1;
      var d, log := SeedDisk(starts[..n]), SeedLog(starts[..n]);
      Seeded(starts[..n]);
      SeedRids(starts[..n]);
      SeedStep(starts);
      if starts[n].Some? {
        SeedOne(d, log, starts[..n], starts[n].value);
        LastStart(starts);
      } else {
        SeedSkip(d, log, starts);
      }
    }
  }

  lemma SeedNone()
    ensures Sane(SeedDisk([])) && LogOk(SeedDisk([]), SeedLog([]), [], true)
  {
    EmptySane();
  }

  lemma SeedStep(starts: seq<Option<int>>)
    requires starts != []
    ensures var n := |starts| - 1;
            var d, log := SeedDisk(starts[..n]), SeedLog(starts[..n]);
            if starts[n].Some? then
              && SeedDisk(starts) == WriteRecord(d, n, EncodeInteger(starts[n].value))
              && SeedLog(starts) == log + [Version(n, d.end, starts[n].value)]
            else
              SeedDisk(starts) == d && SeedLog(starts) == log
  {
    hide WriteRecord, EncodeInteger;
  }

  /** What the log says of the accounts below n it goes on saying. */
  lemma SeedWider(log: seq<Version>, starts: seq<Option<int>>)
    requires starts != []
    requires var n := |starts| - 1;
             && Valued(log, starts[..n]) && Begun(log, starts[..n]) && forall v :: v in log ==> v.rid < n
    ensures Valued(log, starts)
    ensures forall a: nat :: HasRecord(starts, a) ==> a == |starts| - 1 || Latest(log, a).Some?
  {
    hide Count, Latest;
    var n := |starts| - 1;
    forall i | 0 <= i < |log|
      ensures log[i].value
              == StartOf(starts, log[i].rid) + 1 - Initial(starts, log[i].rid) + Count(log[..i], log[i].rid)
    {
      assert log[i] in log;
      assert HasRecord(starts[..n], log[i].rid) == HasRecord(starts, log[i].rid);
    }
    forall a: nat | HasRecord(starts, a) && a != n ensures Latest(log, a).Some? {
      assert HasRecord(starts[..n], a);
    }
  }

  lemma SeedSkip(d: Disk, log: seq<Version>, starts: seq<Option<int>>)
    requires starts != [] && starts[|starts| - 1].None?
    requires var n := |starts| - 1;
             LogOk(d, log, starts[..n], true) && forall v :: v in log ==> v.rid < n
    ensures LogOk(d, log, starts, true)
  {
    SeedWider(log, starts);
    hide Stored, Ordered, Valued, Pointing, Latest;
  }

  lemma LastStart(starts: seq<Option<int>>)
    requires starts != [] && starts[|starts| - 1].Some?
    ensures starts == starts[..|starts| - 1] + [Some(starts[|starts| - 1].value)]
  {
  }

  lemma SeedOne(d: Disk, log: seq<Version>, earlier: seq<Option<int>>, value: int)
    requires Sane(d) && LogOk(d, log, earlier, true) && forall v :: v in log ==> v.rid < |earlier|
    ensures var d' := WriteRecord(d, |earlier|, EncodeInteger(value));
            Sane(d') && LogOk(d', log + [Version(|earlier|, d.end, value)], earlier + [Some(value)], true)
  {
    hide *;
    var n := |earlier|;
    var starts := earlier + [Some(value)];
    assert starts[..n] == earlier;
    var tokens := EncodeInteger(value);
    var v := Version(n, d.end, value);
    var d1 := AppendData(d, tokens);
    var d2 := MoveEnd(d1, tokens);
    var d3 := WriteRecord(d, n, tokens);
    WriteIsAtomic(d, n, tokens);
    SaneHeader(d);
    SaneEnd(d);
    SeedParts(d, n, tokens, d1, d2, d3, v);
    LogFrame(d, d2, log, starts[..n], true);
    forall u | u in log ensures Past(u) <= v.off {
      StoredIn(d, log, starts[..n], true, u);
      StoredPast(d, u);
    }
    SeedPush(d2, d3, log, starts, v);
  }

  lemma SeedParts(d: Disk, n: nat, tokens: seq<Token>, d1: Disk, d2: Disk, d3: Disk, v: Version)
    requires Sane(d)
    requires tokens == EncodeInteger(v.value) && v.off == d.end && v.rid == n
    requires d1 == AppendData(d, tokens) && d2 == MoveEnd(d1, tokens) && d3 == WriteRecord(d, n, tokens)
    ensures d.end <= d2.end <= |d2.data| && d2.alloc == d.alloc && d2.data[..d.end] == d.data[..d.end]
    ensures Stored(d2, v) && d3 == d2.(alloc := SetEntry(d2.alloc, n, EntryOf(v)))
    ensures v.off == d.end
  {
    AppendFacts(d, tokens);
    SaneHeader(d);
    hide Pack, Sane, PutBytes;
  }

  lemma SeedPush(d: Disk, d': Disk, log: seq<Version>, starts: seq<Option<int>>, v: Version)
    requires starts != [] && v.rid == |starts| - 1 && starts[v.rid] == Some(v.value)
    requires LogOk(d, log, starts[..v.rid], true) && forall u :: u in log ==> u.rid < v.rid && Past(u) <= v.off
    requires Stored(d, v) && d' == d.(alloc := SetEntry(d.alloc, v.rid, EntryOf(v)))
    ensures LogOk(d', log + [v], starts, true)
  {
    SeedWider(log, starts);
    CountNone(log, v.rid);
    hide Stored, Past, EntryOf, Ordered, Valued, Pointing, Begun, Latest, Count;
    ValuedSnoc(log, starts, v);
    BegunPush(log, starts, v);
    PointingPush(d, d', log, v);
    OrderedPush(log, v);
    forall u | u in log + [v] ensures Stored(d', u) {
      StoredSame(d, d', u);
    }
  }

  lemma {:induction false} NoSuccesses(clients: seq<Client>, a: nat)
    requires forall k :: k in clients ==> k.done == 0 && k.pc.Loop?
    ensures Successes(clients, a) == 0
  {
    if clients != [] {
      NoSuccesses(clients[..|clients| - 1], a);
    }
  }

  lemma StartOk(starts: seq<Option<int>>, jobs: seq<(nat, nat)>, lone: bool)
    requires lone ==> LoneUnseeded(starts, jobs)
    ensures Inv(Start(starts, jobs), starts, lone)
  {
    var w := Start(starts, jobs);
    Seeded(starts);
    assert LogOk(w.disk, w.log, starts, lone) by {
      hide Stored, Ordered, Valued, Pointing, Begun, SeedDisk, SeedLog;
    }
    hide Sane, LogOk, HasRecord;
    forall a: nat ensures Count(w.log, a) == Initial(starts, a) + Successes(w.clients, a) {
      SeedCount(starts, a);
      NoSuccesses(w.clients, a);
    }
  }

  lemma {:induction false} RunOk(w: World, schedule: seq<nat>, starts: seq<Option<int>>, lone: bool)
    requires Inv(w, starts, lone)
    ensures Inv(Run(w, schedule), starts, lone)
    decreases |schedule|
  {
    hide Inv, Next;
    if schedule != [] {
      Step(w, schedule[0], starts, lone);
      RunOk(Next(w, schedule[0]), schedule[1..], starts, lone);
    }
  }

  // ----- what the protocol promises -----

  lemma EveryRun(starts: seq<Option<int>>, jobs: seq<(nat, nat)>, schedule: seq<nat>, lone: bool)
    requires lone ==> LoneUnseeded(starts, jobs)
    ensures Inv(Run(Start(starts, jobs), schedule), starts, lone)
  {
    hide Inv, Run, Start, LoneUnseeded;
    StartOk(starts, jobs, lone);
    RunOk(Start(starts, jobs), schedule, starts, lone);
  }

  /** After the schedule the counter reads as its start plus the deposits that have
      landed: none is lost, none is made up. */
  ghost predicate Conserved(starts: seq<Option<int>>, jobs: seq<(nat, nat)>, schedule: seq<nat>, a: nat) {
    var w := Run(Start(starts, jobs), schedule);
    Balance(ReadRecord(w.disk, a)) == StartOf(starts, a) + Successes(w.clients, a)
  }

  /** The latest version is what the account reads as. */
  lemma ReadsLatest(w: World, starts: seq<Option<int>>, lone: bool, a: nat)
    requires LogOk(w.disk, w.log, starts, lone)
    ensures var v := Latest(w.log, a);
            && Balance(ReadRecord(w.disk, a)) == (if v.Some? then v.value.value else 0)
            && (ReadRecord(w.disk, a).Some? <==> v.Some?)
  {
    hide LogOk, Fetch, Balance, Stored, Latest, EncodeInteger;
    LatestOk(w.disk, w.log, starts, lone, a);
    FetchNothing(w.disk);
    if Latest(w.log, a).Some? {
      StoredIn(w.disk, w.log, starts, lone, Latest(w.log, a).value);
      FetchVersion(w.disk, Latest(w.log, a).value);
    }
  }

  /** No lost updates, whatever the interleaving, when no two clients share an
      account without a record. */
  lemma NoLostUpdate(starts: seq<Option<int>>, jobs: seq<(nat, nat)>, schedule: seq<nat>, a: nat)
    requires LoneUnseeded(starts, jobs)
    ensures Conserved(starts, jobs, schedule, a)
  {
    var w := Run(Start(starts, jobs), schedule);
    EveryRun(starts, jobs, schedule, true);
    hide Run, Start, Sane, ClientOk, ReadRecord, Balance, Stored, Latest, Count, LoneUnseeded, Unshared, Successes;
    ReadsLatest(w, starts, true, a);
    CountZero(w.log, a);
    if Latest(w.log, a).Some? {
      LatestValue(w.log, starts, a);
    }
  }

  /** A counter that nobody has deposited to has a record if it had one, and one
      that has been deposited to has a record, whoever shares what. */
  lemma RecordOnceWritten(starts: seq<Option<int>>, jobs: seq<(nat, nat)>, schedule: seq<nat>, a: nat)
    ensures var w := Run(Start(starts, jobs), schedule);
            ReadRecord(w.disk, a).Some? <==> HasRecord(starts, a) || Successes(w.clients, a) > 0
  {
    var w := Run(Start(starts, jobs), schedule);
    EveryRun(starts, jobs, schedule, false);
    hide Run, Start, Sane, ClientOk, ReadRecord, Balance, Stored, Latest, Count, Unshared, Successes;
    ReadsLatest(w, starts, false, a);
    CountZero(w.log, a);
  }

  function Targets(jobs: seq<(nat, nat)>, a: nat): nat {
    if jobs == [] then 0
    else Targets(jobs[..|jobs| - 1], a) + (if jobs[|jobs| - 1].0 == a then jobs[|jobs| - 1].1 else 0)
  }

  /** The clients keep their jobs. */
  ghost predicate SameJobs(clients: seq<Client>, jobs: seq<(nat, nat)>) {
    && |clients| == |jobs|
    && forall c :: 0 <= c < |jobs| ==> (clients[c].account, clients[c].target) == jobs[c]
  }

  lemma NextKeepsJobs(w: World, c: nat, jobs: seq<(nat, nat)>)
    requires SameJobs(w.clients, jobs)
    ensures SameJobs(Next(w, c).clients, jobs)
  {
    hide Fetch, Balance, AppendData, MoveEnd, Point, EncodeInteger, EntryAt;
  }

  lemma {:induction false} RunKeepsJobs(w: World, schedule: seq<nat>, jobs: seq<(nat, nat)>)
    requires SameJobs(w.clients, jobs)
    ensures SameJobs(Run(w, schedule).clients, jobs)
    decreases |schedule|
  {
    hide Next;
    if schedule != [] {
      NextKeepsJobs(w, schedule[0], jobs);
      RunKeepsJobs(Next(w, schedule[0]), schedule[1..], jobs);
    }
  }

  lemma {:induction false} AllSucceeded(clients: seq<Client>, jobs: seq<(nat, nat)>, a: nat)
    requires SameJobs(clients, jobs) && forall k :: k in clients ==> k.pc.Loop? && k.done == k.target
    ensures Successes(clients, a) == Targets(jobs, a)
  {
    if jobs != [] {
      var n := |jobs| - 1;
      assert clients[n] in clients && (clients[n].account, clients[n].target) == jobs[n];
      AllSucceeded(clients[..n], jobs[..n], a);
    }
  }

  /** When every process has returned, each counter has moved by exactly the
      deposits asked for. */
  lemma AllDeposited(starts: seq<Option<int>>, jobs: seq<(nat, nat)>, schedule: seq<nat>, a: nat)
    requires LoneUnseeded(starts, jobs)
    requires forall k :: k in Run(Start(starts, jobs), schedule).clients ==> k.pc.Loop? && k.done == k.target
    ensures Balance(ReadRecord(Run(Start(starts, jobs), schedule).disk, a)) == StartOf(starts, a) + Targets(jobs, a)
  {
    var w0 := Start(starts, jobs);
    assert SameJobs(w0.clients, jobs);
    hide Run, Start, ReadRecord, Balance;
    RunKeepsJobs(w0, schedule, jobs);
    AllSucceeded(Run(w0, schedule).clients, jobs, a);
    NoLostUpdate(starts, jobs, schedule, a);
  }

  /** A reader that has only read the table entry gets one whole version of its
      account, however much has been written since, or nothing if it saw nothing. */
  lemma ReadsWholeVersion(starts: seq<Option<int>>, jobs: seq<(nat, nat)>, schedule: seq<nat>, c: nat)
    ensures var w := Run(Start(starts, jobs), schedule);
            c < |w.clients| && w.clients[c].pc.Got? ==>
              var entry := w.clients[c].pc.entry;
              if entry == NOTHING then Fetch(w.disk, entry) == None
              else
                exists v :: v in w.log && v.rid == w.clients[c].account
                  && Fetch(w.disk, entry) == Some(Record(EncodeInteger(v.value), v.off, EntryOf(v).bits))
  {
    var w := Run(Start(starts, jobs), schedule);
    EveryRun(starts, jobs, schedule, false);
    hide *;
    if c < |w.clients| && w.clients[c].pc.Got? {
      Mine(w, c, starts, false);
      FetchNothing(w.disk);
      if w.clients[c].pc.entry != NOTHING {
        var v := SeenVersion(w.disk, w.log, false, Holds(w.lock, c), w.clients[c]);
        StoredIn(w.disk, w.log, starts, false, v);
        FetchVersion(w.disk, v);
      }
    }
  }

  /** Offsets only go up: no version is ever put where another has been, so an
      entry that looks unchanged is unchanged. */
  lemma OffsetsNeverRepeat(starts: seq<Option<int>>, jobs: seq<(nat, nat)>, schedule: seq<nat>, i: nat, j: nat)
    ensures var log := Run(Start(starts, jobs), schedule).log;
            i < j < |log| ==> log[i].off < log[j].off
  {
    var log := Run(Start(starts, jobs), schedule).log;
    EveryRun(starts, jobs, schedule, false);
    hide Run, Start, Sane, ClientOk, Count, Latest, Blob, Stored;
    if i < j < |log| {
      BlobNonempty(log[i].value);
      assert Past(log[i]) <= log[j].off;
    }
  }

  /** The swap goes through exactly when no version of the account has come since
      the read it is based on. */
  lemma SwapsWhenUnchanged(starts: seq<Option<int>>, jobs: seq<(nat, nat)>, schedule: seq<nat>, c: nat)
    ensures var w := Run(Start(starts, jobs), schedule);
            c < |w.clients| && w.clients[c].pc.Held? ==>
              var k := w.clients[c];
              (Next(w, c).clients[c].pc.Entering?
               <==> Latest(w.log, k.account) == Some(Version(k.account, k.pc.place.0, k.pc.value - 1)))
  {
    var w := Run(Start(starts, jobs), schedule);
    EveryRun(starts, jobs, schedule, false);
    hide *;
    if c < |w.clients| && w.clients[c].pc.Held? {
      var k := w.clients[c];
      Mine(w, c, starts, false);
      NextHeld(w, c);
      LatestOk(w.disk, w.log, starts, false, k.account);
      HeldExpects(w.disk, w.log, false, Holds(w.lock, c), k);
      if EntryAt(w.disk, k.account).off == k.pc.place.0 {
        HeldNewest(w.disk, w.log, starts, false, Holds(w.lock, c), k);
      }
      if Latest(w.log, k.account).Some? {
        CurrentIs(w.log, k.account);
      }
    }
  }

  lemma CurrentIs(log: seq<Version>, a: nat)
    requires Latest(log, a).Some?
    ensures Current(log, a) == EntryOf(Latest(log, a).value)
  {
  }

  lemma HeldExpects(d: Disk, log: seq<Version>, lone: bool, holds: nat, k: Client)
    requires ClientOk(d, log, lone, holds, k) && k.pc.Held?
    ensures var read := Version(k.account, k.pc.place.0, k.pc.value - 1);
            read in log && EntryOf(read).off == k.pc.place.0 && EntryOf(read).bits == k.pc.place.1
  {
  }

  /** At most one process is inside the lock, and the re-entrant inner write does
      not let go of it. */
  lemma OneWriter(starts: seq<Option<int>>, jobs: seq<(nat, nat)>, schedule: seq<nat>, c: nat, o: nat)
    ensures var w := Run(Start(starts, jobs), schedule);
            c < |w.clients| && o < |w.clients| && c != o
            && !(w.clients[c].pc.Loop? || w.clients[c].pc.Got? || w.clients[c].pc.Ready?)
            ==> w.clients[o].pc.Loop? || w.clients[o].pc.Got? || w.clients[o].pc.Ready?
  {
    var w := Run(Start(starts, jobs), schedule);
    EveryRun(starts, jobs, schedule, false);
    hide Run, Start, Unshared, Latest, Sane, LogOk, Newest, Stored, Expected, Seen;
    if c < |w.clients| && o < |w.clients| {
      assert ClientOk(w.disk, w.log, false, Holds(w.lock, c), w.clients[c]);
      assert ClientOk(w.disk, w.log, false, Holds(w.lock, o), w.clients[o]);
    }
  }

  /** Some process can always go on until all have returned. */
  lemma NoDeadlock(starts: seq<Option<int>>, jobs: seq<(nat, nat)>, schedule: seq<nat>)
    ensures var w := Run(Start(starts, jobs), schedule);
            (forall k :: k in w.clients ==> k.pc.Loop? && k.done == k.target)
            || exists c :: 0 <= c < |w.clients| && Next(w, c).clients[c] != w.clients[c]
  {
    var w := Run(Start(starts, jobs), schedule);
    EveryRun(starts, jobs, schedule, false);
    hide *;
    if w.lock.Some? {
      LockedClient(w, starts, false);
      var c := w.lock.value.0;
      HolderMoves(w, c, starts, false);
    } else {
      forall c | 0 <= c < |w.clients| && !(w.clients[c].pc.Loop? && w.clients[c].done == w.clients[c].target)
        ensures Next(w, c).clients[c] != w.clients[c]
      {
        FreeMoves(w, c, starts, false);
      }
    }
  }

  lemma LockedClient(w: World, starts: seq<Option<int>>, lone: bool)
    requires Inv(w, starts, lone) && w.lock.Some?
    ensures w.lock.value.0 < |w.clients| && Holds(w.lock, w.lock.value.0) > 0
  {
    hide Unshared, Sane, LogOk, ClientOk;
  }

  lemma HolderMoves(w: World, c: nat, starts: seq<Option<int>>, lone: bool)
    requires Inv(w, starts, lone) && c < |w.clients| && Holds(w.lock, c) > 0
    ensures |Next(w, c).clients| == |w.clients| && Next(w, c).clients[c] != w.clients[c]
  {
    Mine(w, c, starts, lone);
    hide Inv, Latest, Sane, LogOk, Newest, Stored, Expected, Seen, AppendData, MoveEnd, Point, EncodeInteger, EntryAt,
         Fetch, Balance;
  }

  lemma FreeMoves(w: World, c: nat, starts: seq<Option<int>>, lone: bool)
    requires Inv(w, starts, lone) && c < |w.clients| && w.lock.None?
    requires !(w.clients[c].pc.Loop? && w.clients[c].done == w.clients[c].target)
    ensures |Next(w, c).clients| == |w.clients| && Next(w, c).clients[c] != w.clients[c]
  {
    Mine(w, c, starts, lone);
    hide Inv, Latest, Sane, LogOk, Newest, Stored, Expected, Seen, AppendData, MoveEnd, Point, EncodeInteger, EntryAt,
         Fetch, Balance;
  }

  // ----- where the promise stops -----

  /** n turns in a row for client c. */
  function Again(c: nat, n: nat): seq<nat> {
    if n == 0 then [] else [c] + Again(c, n - 1)
  }

  lemma OneTurn(w: World, c: nat, n: nat)
    requires n > 0
    ensures Run(w, Again(c, n)) == Run(Next(w, c), Again(c, n - 1))
  {
    hide Next;
    assert Again(c, n)[1..] == Again(c, n - 1);
  }

  lemma NoTurn(w: World, c: nat)
    ensures Run(w, Again(c, 0)) == w
  {
  }

  lemma {:induction false} RunThen(w: World, s: seq<nat>, t: seq<nat>)
    ensures Run(w, s + t) == Run(Run(w, s), t)
    decreases |s|
  {
    hide Next;
    if s == [] {
      assert s + t == t;
    } else {
      assert (s + t)[1..] == s[1..] + t;
      RunThen(Next(w, s[0]), s[1..], t);
    }
  }

  /** Two looks: an account with no record asks for a plain write of 1. */
  lemma LooksEmpty(w: World, c: nat)
    requires c < |w.clients| && w.clients[c].pc.Loop? && w.clients[c].done < w.clients[c].target
    requires EntryAt(w.disk, w.clients[c].account) == NOTHING
    ensures Run(w, Again(c, 2)) == w.(clients := w.clients[c := w.clients[c].(pc := Ready(1, None))])
  {
    var w1 := Next(w, c);
    assert w1 == w.(clients := w.clients[c := w.clients[c].(pc := Got(NOTHING))]);
    FetchNothing(w.disk);
    NextGotNone(w1, c);
    var w2 := Next(w1, c);
    assert w2 == w.(clients := w.clients[c := w.clients[c].(pc := Ready(1, None))]);
    hide Next, Again, Run;
    OneTurn(w, c, 2);
    OneTurn(w1, c, 1);
    NoTurn(w2, c);
  }

  /** A plain write, from the lock taken to the lock given back. */
  lemma PlainWrite(w: World, c: nat, value: int)
    requires c < |w.clients| && w.clients[c].pc == Ready(value, None) && w.lock.None? && Sane(w.disk)
    ensures var k := w.clients[c];
            Run(w, Again(c, 5)) == World(WriteRecord(w.disk, k.account, EncodeInteger(value)), None,
              w.clients[c := k.(pc := Loop, done := k.done + 1)],
              w.log + [Version(k.account, w.disk.end, value)])
  {
    hide *;
    var k := w.clients[c];
    var off, tokens := w.disk.end, EncodeInteger(value);
    var d1 := AppendData(w.disk, tokens);
    var d2 := MoveEnd(d1, tokens);
    var d3 := WriteRecord(w.disk, k.account, tokens);
    var log' := w.log + [Version(k.account, off, value)];
    WriteIsAtomic(w.disk, k.account, tokens);
    WriteParts(w.disk, k.account, tokens);
    Takes(w, c, value);
    Appends(w, c, value, w.disk);
    Moves(w, c, value, off, d1);
    Points(w, c, value, off, d2);
    Lands(w, c, value, d3, log');
    OneTurn(w, c, 5);
    OneTurn(Midway(w, c, w.disk, Writing(value), w.log), c, 4);
    OneTurn(Midway(w, c, d1, Appended(value, off), w.log), c, 3);
    OneTurn(Midway(w, c, d2, Ended(value, off), w.log), c, 2);
    OneTurn(Midway(w, c, d3, Pointed(value), log'), c, 1);
    NoTurn(World(d3, None, w.clients[c := k.(pc := Loop, done := k.done + 1)], log'), c);
  }

  /** The world with client c inside the lock, somewhere in its write. */
  function Midway(w: World, c: nat, d: Disk, pc: Pc, log: seq<Version>): World
    requires c < |w.clients|
  {
    World(d, Some((c, 1)), w.clients[c := w.clients[c].(pc := pc)], log)
  }

  lemma WriteParts(d: Disk, rid: nat, tokens: seq<Token>)
    ensures WriteRecord(d, rid, tokens) == Point(MoveEnd(AppendData(d, tokens), tokens), rid, d.end, tokens)
    ensures AppendData(d, tokens).end == d.end
  {
    hide Pack, PutBytes;
  }

  lemma Takes(w: World, c: nat, value: int)
    requires c < |w.clients| && w.clients[c].pc == Ready(value, None) && w.lock.None?
    ensures Next(w, c) == Midway(w, c, w.disk, Writing(value), w.log)
  {
  }

  lemma Appends(w: World, c: nat, value: int, d: Disk)
    requires c < |w.clients|
    ensures Midway(w, c, d, Writing(value), w.log).disk == d
    ensures Next(Midway(w, c, d, Writing(value), w.log), c)
         == Midway(w, c, AppendData(d, EncodeInteger(value)), Appended(value, d.end), w.log)
  {
    hide AppendData, EncodeInteger;
  }

  lemma Moves(w: World, c: nat, value: int, off: nat, d: Disk)
    requires c < |w.clients|
    ensures Midway(w, c, d, Appended(value, off), w.log).disk == d
    ensures Next(Midway(w, c, d, Appended(value, off), w.log), c)
         == Midway(w, c, MoveEnd(d, EncodeInteger(value)), Ended(value, off), w.log)
  {
    hide MoveEnd, EncodeInteger;
  }

  lemma Points(w: World, c: nat, value: int, off: nat, d: Disk)
    requires c < |w.clients|
    ensures Midway(w, c, d, Ended(value, off), w.log).disk == d
    ensures Next(Midway(w, c, d, Ended(value, off), w.log), c)
         == Midway(w, c, Point(d, w.clients[c].account, off, EncodeInteger(value)), Pointed(value),
                   w.log + [Version(w.clients[c].account, off, value)])
  {
    hide Point, EncodeInteger;
  }

  lemma Lands(w: World, c: nat, value: int, d: Disk, log: seq<Version>)
    requires c < |w.clients|
    ensures Midway(w, c, d, Pointed(value), log).disk == d
    ensures Next(Midway(w, c, d, Pointed(value), log), c)
         == World(d, None, w.clients[c := w.clients[c].(pc := Loop, done := w.clients[c].done + 1)], log)
  {
  }

  lemma SaneEnd(d: Disk)
    requires Sane(d)
    ensures d.end <= |d.data|
  {
  }

  /** Before anyone runs the table has no entry for an account without a record. */
  lemma StartNothing(starts: seq<Option<int>>, a: nat)
    requires !HasRecord(starts, a)
    ensures Sane(SeedDisk(starts)) && EntryAt(SeedDisk(starts), a) == NOTHING
  {
    hide SeedDisk, SeedLog, Sane, LogOk, Latest, Count, HasRecord;
    Seeded(starts);
    LatestOk(SeedDisk(starts), SeedLog(starts), starts, true, a);
    SeedCount(starts, a);
    CountZero(SeedLog(starts), a);
  }

  /** i looks, j looks, i writes, j writes. */
  function Race(i: nat, j: nat): seq<nat> {
    Again(i, 2) + Again(j, 2) + Again(i, 5) + Again(j, 5)
  }

  lemma RaceRun(w: World, i: nat, j: nat)
    ensures Run(w, Race(i, j))
         == Run(Run(Run(Run(w, Again(i, 2)), Again(j, 2)), Again(i, 5)), Again(j, 5))
  {
    hide Run, Again;
    RunThen(w, Again(i, 2) + Again(j, 2) + Again(i, 5), Again(j, 5));
    RunThen(w, Again(i, 2) + Again(j, 2), Again(i, 5));
    RunThen(w, Again(i, 2), Again(j, 2));
  }

  /** Two processes find nothing, both write a plain 1, both count a deposit. */
  lemma BothWriteOne(w: World, i: nat, j: nat, k: Client, l: Client)
    requires i < |w.clients| && j < |w.clients| && i != j && w.clients[i] == k && w.clients[j] == l
    requires k.pc.Loop? && k.done < k.target && l.pc.Loop? && l.done < l.target && k.account == l.account
    requires Sane(w.disk) && w.lock.None? && EntryAt(w.disk, k.account) == NOTHING
    ensures var end := Run(w, Race(i, j));
            && end.clients == w.clients[i := k.(done := k.done + 1)][j := l.(done := l.done + 1)]
            && Balance(ReadRecord(end.disk, k.account)) == 1
  {
    hide *;
    RaceRun(w, i, j);
    BothLook(w, i, j, k, l);
    var w3 := Run(Run(Run(w, Again(i, 2)), Again(j, 2)), Again(i, 5));
    PlainWrite(w3, j, 1);
    OneWritten(w3.disk, k.account);
  }

  lemma BothLook(w: World, i: nat, j: nat, k: Client, l: Client)
    requires i < |w.clients| && j < |w.clients| && i != j && w.clients[i] == k && w.clients[j] == l
    requires k.pc.Loop? && k.done < k.target && l.pc.Loop? && l.done < l.target && k.account == l.account
    requires Sane(w.disk) && w.lock.None? && EntryAt(w.disk, k.account) == NOTHING
    ensures var w3 := Run(Run(Run(w, Again(i, 2)), Again(j, 2)), Again(i, 5));
            && w3.clients == w.clients[i := k.(done := k.done + 1)][j := l.(pc := Ready(1, None))]
            && Sane(w3.disk) && w3.lock.None?
  {
    hide *;
    LooksEmpty(w, i);
    var w1 := Run(w, Again(i, 2));
    LooksEmpty(w1, j);
    var w2 := Run(w1, Again(j, 2));
    PlainWrite(w2, i, 1);
    WriteIsAtomic(w.disk, k.account, EncodeInteger(1));
  }

  lemma OneWritten(d: Disk, a: nat)
    requires Sane(d)
    ensures Balance(ReadRecord(WriteRecord(d, a, EncodeInteger(1)), a)) == 1
  {
    hide *;
    WriteIsAtomic(d, a, EncodeInteger(1));
    BlobNonempty(1);
    EncodedBalance(1, d.end, 5 * |EncodeInteger(1)|);
  }

  /** An account without a record and two clients with a deposit to make: two
      deposits are counted and one is on the counter. */
  lemma UnseededLoses(starts: seq<Option<int>>, jobs: seq<(nat, nat)>, i: nat, j: nat)
    requires i < |jobs| && j < |jobs| && i != j && jobs[i].0 == jobs[j].0 && jobs[i].1 > 0 && jobs[j].1 > 0
    requires !HasRecord(starts, jobs[i].0)
    ensures var w := Run(Start(starts, jobs), Race(i, j));
            Successes(w.clients, jobs[i].0) == 2 && Balance(ReadRecord(w.disk, jobs[i].0)) == 1
    ensures !Conserved(starts, jobs, Race(i, j), jobs[i].0)
  {
    var a := jobs[i].0;
    var w := Start(starts, jobs);
    var k, l := w.clients[i], w.clients[j];
    StartNothing(starts, a);
    NoSuccesses(w.clients, a);
    hide Run, Race, SeedDisk, SeedLog, Sane, EntryAt, Balance, ReadRecord, Successes;
    BothWriteOne(w, i, j, k, l);
    SuccessesUpdate(w.clients, i, k.(done := 1), a);
    SuccessesUpdate(w.clients[i := k.(done := 1)], j, l.(done := 1), a);
  }

  /** Exactly when no deposit can be lost: under every schedule every counter reads
      as its start plus the deposits that have landed if and only if every account
      without a record has at most one client with a deposit to make. */
  lemma ConservedExactly(starts: seq<Option<int>>, jobs: seq<(nat, nat)>)
    ensures (forall schedule: seq<nat>, a: nat :: Conserved(starts, jobs, schedule, a)) <==> LoneUnseeded(starts, jobs)
  {
    hide Conserved, HasRecord;
    if LoneUnseeded(starts, jobs) {
      forall schedule: seq<nat>, a: nat ensures Conserved(starts, jobs, schedule, a) {
        NoLostUpdate(starts, jobs, schedule, a);
      }
    } else {
      var i, j :| 0 <= i < |jobs| && 0 <= j < |jobs| && i != j
        && jobs[i].0 == jobs[j].0 && jobs[i].1 > 0 && jobs[j].1 > 0 && !HasRecord(starts, jobs[i].0);
      UnseededLoses(starts, jobs, i, j);
    }
  }
}
