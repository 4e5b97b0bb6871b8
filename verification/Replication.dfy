/** A replica that pulls the master's log and applies it entry by entry, halting at
    the first whose digest is wrong, and saves its cursor after each pull
    (python/griddb_replication.py). A crash may fall between any two of its disk
    effects, and the master writes on meanwhile. */
module Replication {
  import opened Lexicon

  datatype Entry = Entry(number: int, rid: nat, tokens: seq<Token>)

  type Store = map<nat, seq<Token>>

  function Write(s: Store, e: Entry): Store {
    s[e.rid := e.tokens]
  }

  function Replay(log: seq<Entry>): Store {
    if log == [] then map[] else Write(Replay(log[..|log| - 1]), log[|log| - 1])
  }

  /** The entries numbered above a cursor, as the master answers a pull. */
  function Since(log: seq<Entry>, cursor: int): seq<Entry> {
    if log == [] then []
    else (if log[0].number > cursor then [log[0]] else []) + Since(log[1..], cursor)
  }

  // ----- the machine -----

  /** An entry as it arrives: whether its digest checks. */
  datatype Wire = Wire(entry: Entry, good: bool)

  datatype Phase =
    | Idle
    /** Entries still to apply. */
    | Applying(batch: seq<Wire>)
    /** The pull is over, by its end or at a bad entry; the cursor is to be saved. */
    | Saving(halted: bool)
    /** The cursor file is open for writing and empty: read now it says -1. */
    | Emptied

  /** Log entries from..to, applied one after another with nothing applied since that
      is not in a later stretch. */
  datatype Stretch = Stretch(from: nat, to: nat)

  /** log is the master's; store and saved are the replica's disk; cursor and phase
      its memory. layers is an observer: the stretches applied, the latest first. A
      crash starts a new one, and one that catches up with the one below joins it. */
  datatype World = World(log: seq<Entry>, store: Store, saved: int, cursor: int, phase: Phase, layers: seq<Stretch>)

  datatype Event =
    | MasterWrites(rid: nat, tokens: seq<Token>)
    /** A pull; the entries at these places arrive with a wrong digest. */
    | Pull(bad: set<nat>)
    | Tick
    | Crash

  const START := World([], map[], -1, -1, Idle, [Stretch(0, 0)])

  function Arrives(es: seq<Entry>, bad: set<nat>): (r: seq<Wire>)
    ensures |r| == |es|
  {
    seq(|es|, i requires 0 <= i < |es| => Wire(es[i], i !in bad))
  }

  function Min(a: nat, b: nat): nat {
    if a < b then a else b
  }

  /** The latest stretch now ends at to. */
  function Extended(layers: seq<Stretch>, to: nat): seq<Stretch> {
    if layers == [] then [Stretch(0, to)]
    else if |layers| > 1 && layers[1].to <= to then
      [Stretch(Min(layers[0].from, layers[1].from), to)] + layers[2..]
    else [Stretch(layers[0].from, to)] + layers[1..]
  }

  function DoTick(w: World): World {
    match w.phase
    case Idle => w
    case Applying(batch) =>
      if batch == [] then w.(phase := Saving(false))
      else if !batch[0].good then w.(phase := Saving(true))
      else
        w.(store := Write(w.store, batch[0].entry), cursor := batch[0].entry.number, phase := Applying(batch[1..]),
           layers := Extended(w.layers, if batch[0].entry.number >= 0 then batch[0].entry.number + 1 else 0))
    case Saving(_) => w.(saved := -1, phase := Emptied)
    case Emptied => w.(saved := w.cursor, phase := Idle)
  }

  function Next(w: World, e: Event): World {
    match e
    case MasterWrites(rid, tokens) => w.(log := w.log + [Entry(|w.log|, rid, tokens)])
    case Pull(bad) =>
      var es := Since(w.log, w.cursor);
      if w.phase.Idle? && es != [] then w.(phase := Applying(Arrives(es, bad))) else w
    case Tick => DoTick(w)
    case Crash =>
      w.(cursor := w.saved, phase := Idle,
         layers := if -1 <= w.saved < w.cursor then [Stretch(w.saved + 1, w.saved + 1)] + w.layers else w.layers)
  }

  function Run(w: World, events: seq<Event>): World
    decreases |events|
  {
    if events == [] then w else Run(Next(w, events[0]), events[1..])
  }

  // ----- what every step keeps -----

  /** The log is numbered from zero. */
  ghost predicate Numbered(log: seq<Entry>) {
    forall i :: 0 <= i < |log| ==> log[i].number == i
  }

  function Touched(log: seq<Entry>, from: int, to: int): set<nat> {
    set i | 0 <= i < |log| && from <= i < to :: log[i].rid
  }

  function Lookup(s: Store, r: nat): Option<seq<Token>> {
    if r in s then Some(s[r]) else None
  }

  ghost predicate Agree(s: Store, t: Store, off: set<nat>) {
    forall r: nat :: r !in off ==> Lookup(s, r) == Lookup(t, r)
  }

  /** A batch is a stretch of the log right after the cursor. */
  ghost predicate BatchOk(log: seq<Entry>, cursor: int, batch: seq<Wire>) {
    && -1 <= cursor && cursor + 1 + |batch| <= |log|
    && forall i :: 0 <= i < |batch| ==> batch[i].entry == log[cursor + 1 + i]
  }

  /** Where a record stands: at the end of the latest stretch that wrote it. */
  function Standing(log: seq<Entry>, layers: seq<Stretch>, r: nat): nat {
    if layers == [] then 0
    else if |layers| == 1 || r in Touched(log, layers[0].from, layers[0].to) then layers[0].to
    else Standing(log, layers[1..], r)
  }

  /** Every record reads as in the log up to where it stands. */
  ghost predicate Layered(log: seq<Entry>, store: Store, layers: seq<Stretch>) {
    forall r: nat :: Standing(log, layers, r) <= |log|
        && Lookup(store, r) == Lookup(Replay(log[..Standing(log, layers, r)]), r)
  }

  /** The stretches end further and further down the log, the first at to. */
  ghost predicate Stacked(layers: seq<Stretch>, to: nat, end: nat) {
    && layers != [] && layers[0].from <= layers[0].to == to <= end
    && (|layers| > 1 ==> to < layers[1].to && Stacked(layers[1..], layers[1].to, end))
  }

  function Reach(layers: seq<Stretch>): nat {
    if layers == [] then 0 else if |layers| == 1 then layers[0].to else Reach(layers[1..])
  }

  ghost predicate Inv(w: World) {
    && Numbered(w.log)
    && -1 <= w.saved <= w.cursor < |w.log|
    && Stacked(w.layers, w.cursor + 1, |w.log|)
    && Layered(w.log, w.store, w.layers)
    && (w.phase.Applying? ==>
          BatchOk(w.log, w.cursor, w.phase.batch) && Reach(w.layers) <= w.cursor + 1 + |w.phase.batch|)
    && (w.phase.Saving? && !w.phase.halted ==> |w.layers| == 1)
  }

  lemma {:induction false} SinceIs(log: seq<Entry>, base: int, cursor: int)
    requires forall i :: 0 <= i < |log| ==> log[i].number == base + i
    requires base - 1 <= cursor < base + |log|
    ensures Since(log, cursor) == log[cursor + 1 - base..]
    decreases |log|
  {
    if log != [] {
      if base > cursor {
        SinceAll(log, cursor);
        assert log[0..] == log;
      } else {
        SinceIs(log[1..], base + 1, cursor);
        assert log[1..][cursor + 1 - (base + 1)..] == log[cursor + 1 - base..];
      }
    }
  }

  lemma {:induction false} SinceAll(log: seq<Entry>, cursor: int)
    requires forall i :: 0 <= i < |log| ==> log[i].number > cursor
    ensures Since(log, cursor) == log
  {
    if log != [] {
      SinceAll(log[1..], cursor);
    }
  }

  lemma ReplayStep(log: seq<Entry>, k: nat)
    requires k < |log|
    ensures Replay(log[..k + 1]) == Write(Replay(log[..k]), log[k])
  {
    assert log[..k + 1][..k] == log[..k];
  }

  /** Entries between two points change only the records they write. */
  lemma {:induction false} ReplayFrame(log: seq<Entry>, a: nat, b: nat)
    requires a <= b <= |log|
    ensures Agree(Replay(log[..b]), Replay(log[..a]), Touched(log, a, b))
    decreases b - a
  {
    hide Replay;
    if a < b {
      ReplayFrame(log, a, b - 1);
      ReplayStep(log, b - 1);
      forall r: nat | r !in Touched(log, a, b) ensures r !in Touched(log, a, b - 1) && r != log[b - 1].rid {
        assert forall i :: 0 <= i < |log| && a <= i < b ==> log[i].rid in Touched(log, a, b);
      }
    }
  }

  lemma {:induction false} StackedWithin(layers: seq<Stretch>, to: nat, end: nat, more: nat)
    requires Stacked(layers, to, end) && end <= more
    ensures Stacked(layers, to, more) && to <= Reach(layers) <= end
    ensures forall i :: 0 <= i < |layers| ==> layers[i].to <= end
  {
    if |layers| > 1 {
      StackedWithin(layers[1..], layers[1].to, end, more);
      assert forall i :: 1 <= i < |layers| ==> layers[i] == layers[1..][i - 1];
    }
  }

  lemma KeepsMaster(w: World, rid: nat, tokens: seq<Token>)
    requires Inv(w)
    ensures Inv(Next(w, MasterWrites(rid, tokens)))
  {
    var e := Entry(|w.log|, rid, tokens);
    var log' := w.log + [e];
    StackedWithin(w.layers, w.cursor + 1, |w.log|, |log'|);
    hide Replay, Touched, Standing, Extended, Lookup, Stacked, Reach;
    forall r: nat
      ensures Standing(log', w.layers, r) <= |log'|
      ensures Lookup(w.store, r) == Lookup(Replay(log'[..Standing(log', w.layers, r)]), r)
    {
      StandingPrefix(w.log, log', w.layers, r);
      var k := Standing(w.log, w.layers, r);
      assert log'[..k] == w.log[..k];
    }
  }

  lemma {:induction false} StandingPrefix(log: seq<Entry>, log': seq<Entry>, layers: seq<Stretch>, r: nat)
    requires log <= log' && forall i :: 0 <= i < |layers| ==> layers[i].to <= |log|
    ensures Standing(log', layers, r) == Standing(log, layers, r)
  {
    if |layers| > 1 {
      TouchedPrefix(log, log', layers[0].from, layers[0].to);
      hide Touched;
      StandingPrefix(log, log', layers[1..], r);
    }
  }

  lemma TouchedPrefix(log: seq<Entry>, log': seq<Entry>, a: int, b: int)
    requires log <= log' && b <= |log|
    ensures Touched(log', a, b) == Touched(log, a, b)
  {
    forall r | r in Touched(log', a, b) ensures r in Touched(log, a, b) {
      var i :| 0 <= i < |log'| && a <= i < b && log'[i].rid == r;
      assert log[i].rid == r;
    }
    forall r | r in Touched(log, a, b) ensures r in Touched(log', a, b) {
      var i :| 0 <= i < |log| && a <= i < b && log[i].rid == r;
      assert log'[i].rid == r;
    }
  }

  lemma KeepsPull(w: World, bad: set<nat>)
    requires Inv(w)
    ensures Inv(Next(w, Pull(bad)))
  {
    hide *;
    var es := PullGets(w);
    if w.phase.Idle? && es != [] {
      var batch := Arrives(es, bad);
      BatchArrives(w.log, w.cursor, bad);
      NextPull(w, bad);
      PullKeeps(w, batch);
    } else {
      NoPull(w, bad);
    }
  }

  lemma PullGets(w: World) returns (es: seq<Entry>)
    requires Inv(w)
    ensures -1 <= w.cursor < |w.log| && es == w.log[w.cursor + 1..] && Since(w.log, w.cursor) == es
  {
    SinceIs(w.log, 0, w.cursor);
    es := w.log[w.cursor + 1..];
  }

  lemma NextPull(w: World, bad: set<nat>)
    requires w.phase.Idle? && Since(w.log, w.cursor) != []
    ensures Next(w, Pull(bad)) == w.(phase := Applying(Arrives(Since(w.log, w.cursor), bad)))
  {
    hide Since, Arrives;
  }

  lemma NoPull(w: World, bad: set<nat>)
    requires !w.phase.Idle? || Since(w.log, w.cursor) == []
    ensures Next(w, Pull(bad)) == w
  {
    hide Since;
  }

  lemma BatchArrives(log: seq<Entry>, cursor: int, bad: set<nat>)
    requires -1 <= cursor < |log|
    ensures BatchOk(log, cursor, Arrives(log[cursor + 1..], bad))
  {
  }

  lemma PullKeeps(w: World, batch: seq<Wire>)
    requires Inv(w) && BatchOk(w.log, w.cursor, batch) && w.cursor + 1 + |batch| == |w.log|
    ensures Inv(w.(phase := Applying(batch)))
  {
    hide Layered, BatchOk, Numbered;
    StackedWithin(w.layers, w.cursor + 1, |w.log|, |w.log|);
  }

  lemma KeepsCrash(w: World)
    requires Inv(w)
    ensures Inv(Next(w, Crash))
  {
    if w.saved < w.cursor {
      var p := w.saved + 1;
      var layers := [Stretch(p, p)] + w.layers;
      forall r: nat ensures Standing(w.log, layers, r) == Standing(w.log, w.layers, r) {
        EmptyOnTop(w.log, w.layers, p, r);
      }
      hide Replay, Standing, Numbered, Lookup;
    }
  }

  lemma EmptyOnTop(log: seq<Entry>, layers: seq<Stretch>, p: nat, r: nat)
    requires layers != []
    ensures Standing(log, [Stretch(p, p)] + layers, r) == Standing(log, layers, r)
  {
    assert ([Stretch(p, p)] + layers)[1..] == layers;
  }

  lemma TouchedNext(log: seq<Entry>, a: nat, b: nat, r: nat)
    requires a <= b < |log|
    ensures r in Touched(log, a, b + 1) <==> r in Touched(log, a, b) || r == log[b].rid
  {
  }

  lemma TouchedJoin(log: seq<Entry>, a: nat, b: nat, to: nat, r: nat)
    requires r in Touched(log, a, to) || r in Touched(log, b, to)
    ensures r in Touched(log, Min(a, b), to)
  {
  }

  lemma TouchedLeast(log: seq<Entry>, a: nat, b: nat, to: nat, r: nat)
    requires r in Touched(log, Min(a, b), to)
    ensures r in Touched(log, a, to) || r in Touched(log, b, to)
  {
  }

  /** The record the next entry writes stands at its end, every other one where it
      stood, or with the latest stretch. */
  lemma StandsAfter(log: seq<Entry>, layers: seq<Stretch>, k: nat, r: nat)
    requires k < |log| && Stacked(layers, k, |log|)
    ensures var j := Standing(log, Extended(layers, k + 1), r);
            && (r == log[k].rid ==> j == k + 1)
            && (r != log[k].rid ==>
                  j == Standing(log, layers, r) || (j == k + 1 && Standing(log, layers, r) == k))
  {
    var b := layers[0].from;
    TouchedNext(log, b, k, r);
    if |layers| == 1 {
      assert Extended(layers, k + 1) == [Stretch(b, k + 1)];
    } else {
      var next := layers[1];
      if next.to == k + 1 {
        var joined := [Stretch(Min(b, next.from), k + 1)] + layers[2..];
        assert joined[1..] == layers[1..][1..];
        if r in Touched(log, Min(b, next.from), k + 1) {
          TouchedLeast(log, b, next.from, k + 1, r);
        } else if r in Touched(log, b, k + 1) || r in Touched(log, next.from, k + 1) {
          TouchedJoin(log, b, next.from, k + 1, r);
        }
        hide Touched;
      } else {
        var longer := [Stretch(b, k + 1)] + layers[1..];
        assert longer[1..] == layers[1..];
        hide Touched;
      }
    }
  }

  lemma StacksOn(layers: seq<Stretch>, k: nat, end: nat)
    requires k < end && Stacked(layers, k, end)
    ensures Stacked(Extended(layers, k + 1), k + 1, end)
    ensures Reach(Extended(layers, k + 1)) == if |layers| == 1 then k + 1 else Reach(layers)
  {
    var after := Extended(layers, k + 1);
    if |layers| > 1 {
      if layers[1].to <= k + 1 {
        assert after[1..] == layers[1..][1..];
      } else {
        assert after[1..] == layers[1..];
      }
    }
  }

  lemma {:induction false} StandsBetween(log: seq<Entry>, layers: seq<Stretch>, k: nat, r: nat)
    requires Stacked(layers, k, |log|)
    ensures k <= Standing(log, layers, r) <= Reach(layers) <= |log|
    decreases |layers|
  {
    if |layers| > 1 {
      StandsBetween(log, layers[1..], layers[1].to, r);
      hide Touched;
    }
  }

  lemma {:induction false} OneLayer(layers: seq<Stretch>, to: nat, end: nat)
    requires Stacked(layers, to, end)
    ensures if |layers| == 1 then Reach(layers) == to else Reach(layers) > to
  {
    if |layers| > 1 {
      OneLayer(layers[1..], layers[1].to, end);
    }
  }

  lemma AppliesNext(log: seq<Entry>, store: Store, layers: seq<Stretch>, k: nat)
    requires k < |log| && Stacked(layers, k, |log|) && Layered(log, store, layers)
    ensures Layered(log, Write(store, log[k]), Extended(layers, k + 1))
  {
    ReplayStep(log, k);
    StacksOn(layers, k, |log|);
    hide Replay, Standing, Extended, Stacked;
    var layers', store' := Extended(layers, k + 1), Write(store, log[k]);
    forall r: nat
      ensures Standing(log, layers', r) <= |log|
      ensures Lookup(store', r) == Lookup(Replay(log[..Standing(log, layers', r)]), r)
    {
      StandsAfter(log, layers, k, r);
      StandsBetween(log, layers', k + 1, r);
      assert Lookup(store, r) == Lookup(Replay(log[..Standing(log, layers, r)]), r);
    }
  }

  lemma KeepsTick(w: World)
    requires Inv(w)
    ensures Inv(DoTick(w))
  {
    hide Layered, Extended, Numbered, Stacked, Reach, BatchOk, Write;
    if w.phase.Applying? && w.phase.batch != [] && w.phase.batch[0].good {
      var k := w.cursor + 1;
      BatchMoves(w.log, w.cursor, w.phase.batch);
      AppliesNext(w.log, w.store, w.layers, k);
      StacksOn(w.layers, k, |w.log|);
    } else if w.phase == Applying([]) {
      OneLayer(w.layers, w.cursor + 1, |w.log|);
    }
  }

  lemma BatchMoves(log: seq<Entry>, cursor: int, batch: seq<Wire>)
    requires Numbered(log) && BatchOk(log, cursor, batch) && batch != []
    ensures cursor + 1 < |log| && batch[0].entry == log[cursor + 1] && log[cursor + 1].number == cursor + 1
    ensures BatchOk(log, cursor + 1, batch[1..])
  {
  }

  lemma KeepsNext(w: World, e: Event)
    requires Inv(w)
    ensures Inv(Next(w, e))
  {
    hide Inv;
    match e
    case MasterWrites(rid, tokens) => KeepsMaster(w, rid, tokens);
    case Pull(bad) => KeepsPull(w, bad);
    case Tick => KeepsTick(w);
    case Crash => KeepsCrash(w);
  }

  lemma {:induction false} KeepsRun(w: World, events: seq<Event>)
    requires Inv(w)
    ensures Inv(Run(w, events))
    decreases |events|
  {
    hide Inv, Next;
    if events != [] {
      KeepsNext(w, events[0]);
      KeepsRun(Next(w, events[0]), events[1..]);
    }
  }

  lemma StartOk()
    ensures Inv(START)
  {
  }

  // ----- what the replica promises -----

  ghost predicate NoCrash(events: seq<Event>) {
    Crash !in events
  }

  lemma {:induction false} StaysWhole(w: World, events: seq<Event>)
    requires Inv(w) && |w.layers| == 1 && NoCrash(events)
    ensures |Run(w, events).layers| == 1
    decreases |events|
  {
    if events != [] {
      var w' := Next(w, events[0]);
      assert events[0] in events;
      KeepsNext(w, events[0]);
      assert |w'.layers| == 1;
      hide Inv, Next;
      forall e | e in events[1..] ensures e in events {
      }
      StaysWhole(w', events[1..]);
    }
  }

  /** One stretch is a prefix of the log. */
  lemma WholeReads(w: World)
    requires Inv(w) && |w.layers| == 1
    ensures Agree(w.store, Replay(w.log[..w.cursor + 1]), {})
  {
    hide Replay;
    forall r: nat ensures Lookup(w.store, r) == Lookup(Replay(w.log[..w.cursor + 1]), r) {
      assert Standing(w.log, w.layers, r) == w.cursor + 1;
    }
  }

  /** Without crashes the replica is at every moment the master's log up to its
      cursor, with no hole in it, bad entries or not. */
  lemma AlwaysAPrefix(events: seq<Event>)
    requires NoCrash(events)
    ensures var w := Run(START, events);
            && -1 <= w.cursor < |w.log|
            && Agree(w.store, Replay(w.log[..w.cursor + 1]), {})
  {
    StartOk();
    KeepsRun(START, events);
    StaysWhole(START, events);
    WholeReads(Run(START, events));
  }

  /** Crashes between applying and saving make entries apply again over later ones;
      but whenever a pull runs to its end with no bad entry, whatever came before,
      the replica is the log up to its cursor again. */
  lemma WholePullHeals(events: seq<Event>)
    ensures var w := Run(START, events);
            w.phase == Saving(false) ==>
              && -1 <= w.cursor < |w.log|
              && Agree(w.store, Replay(w.log[..w.cursor + 1]), {})
  {
    StartOk();
    KeepsRun(START, events);
    if Run(START, events).phase == Saving(false) {
      WholeReads(Run(START, events));
    }
  }

  /** What a record reads as in the first k entries of the log. */
  function At(log: seq<Entry>, k: nat, r: nat): Option<seq<Token>> {
    if k <= |log| then Lookup(Replay(log[..k]), r) else None
  }

  /** At every moment of every run, crashes and all, each record of the replica reads
      as in the log up to the end of the latest stretch that wrote it. */
  lemma ReplicaReads(events: seq<Event>, r: nat)
    ensures var w := Run(START, events);
            Lookup(w.store, r) == At(w.log, Standing(w.log, w.layers, r), r)
  {
    StartOk();
    KeepsRun(START, events);
    hide Run, Lookup, Standing, Replay;
  }

  lemma TouchedWider(log: seq<Entry>, a: int, b: int, c: int, d: int)
    requires c <= a && b <= d
    ensures Touched(log, a, b) <= Touched(log, c, d)
  {
  }

  lemma SameUntilTouched(log: seq<Entry>, a: nat, b: nat, r: nat)
    requires a <= b <= |log| && r !in Touched(log, a, b)
    ensures At(log, b, r) == At(log, a, r)
  {
    ReplayFrame(log, a, b);
    hide Replay, Touched;
  }

  lemma PrefixRecord(w: World, r: nat)
    requires Inv(w)
    ensures var to := w.cursor + 1;
            && 0 <= to <= |w.log|
            && Lookup(w.store, r) == At(w.log, Standing(w.log, w.layers, r), r)
            && At(w.log, to, r) == Lookup(Replay(w.log[..to]), r)
            && (r !in Touched(w.log, to, Reach(w.layers)) ==> Lookup(w.store, r) == At(w.log, to, r))
  {
    var to := w.cursor + 1;
    hide Replay, Touched, Standing, Numbered, BatchOk, Stacked, Reach, Lookup;
    StandsBetween(w.log, w.layers, to, r);
    if r !in Touched(w.log, to, Reach(w.layers)) {
      var j := Standing(w.log, w.layers, r);
      TouchedWider(w.log, to, j, to, Reach(w.layers));
      SameUntilTouched(w.log, to, j, r);
    }
  }

  /** Record r, if it is one of those the cursor and the reach lie on either side of,
      reads at the cursor as where it stands. */
  predicate SameAtCursor(w: World, r: nat)
    requires w.cursor >= -1
  {
    At(w.log, Standing(w.log, w.layers, r), r) == At(w.log, w.cursor + 1, r)
  }

  lemma PrefixWhen(w: World)
    requires Inv(w)
    ensures 0 <= w.cursor + 1 <= |w.log|
    ensures Agree(w.store, Replay(w.log[..w.cursor + 1]), {})
        <==> forall r :: r in Touched(w.log, w.cursor + 1, Reach(w.layers)) ==> SameAtCursor(w, r)
  {
    var to: nat := w.cursor + 1;
    var t := Replay(w.log[..to]);
    var xs := Touched(w.log, to, Reach(w.layers));
    hide Replay, Touched, Standing, Inv, Reach, Lookup, At, Agree;
    forall r: nat
      ensures Lookup(w.store, r) == Lookup(t, r) <==> SameAtCursor(w, r)
      ensures r !in xs ==> Lookup(w.store, r) == Lookup(t, r)
    {
      PrefixRecord(w, r);
    }
    hide SameAtCursor;
    AgreeExactly(w.store, t, xs);
  }

  /** Exactly when the replica is the log up to its cursor, whatever crashes there
      were: when every record written between the cursor and the furthest entry ever
      applied reads there as where it stands. */
  lemma PrefixExactly(events: seq<Event>)
    ensures var w := Run(START, events);
            && 0 <= w.cursor + 1 <= |w.log|
            && (Agree(w.store, Replay(w.log[..w.cursor + 1]), {})
                <==> forall r :: r in Touched(w.log, w.cursor + 1, Reach(w.layers)) ==> SameAtCursor(w, r))
  {
    hide *;
    StartOk();
    KeepsRun(START, events);
    PrefixWhen(Run(START, events));
  }

  lemma AgreeExactly(s: Store, t: Store, xs: set<nat>)
    requires forall r: nat :: r !in xs ==> Lookup(s, r) == Lookup(t, r)
    ensures Agree(s, t, {}) <==> forall r: nat :: r in xs ==> Lookup(s, r) == Lookup(t, r)
  {
    hide Lookup;
  }

  lemma {:induction false} RunThen(w: World, s: seq<Event>, t: seq<Event>)
    ensures Run(w, s + t) == Run(Run(w, s), t)
    decreases |s|
  {
    hide Next;
    if s == [] {
      assert s + t == t;
    } else {
      assert (s + t)[1..] == s[1..] + t;
      RunThen(Next(w, s[0]), s[1..], t);
    }
  }

  /** Catching up after one crash: the stretch from the saved cursor on, over what
      had been applied up to reach, until it gets that far. */
  ghost predicate CatchingUp(w: World, from: nat, reach: nat) {
    || (|w.layers| == 1 && reach <= w.cursor + 1)
    || (|w.layers| == 2 && w.layers[0].from == from && w.layers[1].to == reach)
  }

  lemma {:induction false} StaysCatchingUp(w: World, events: seq<Event>, from: nat, reach: nat)
    requires Inv(w) && CatchingUp(w, from, reach) && NoCrash(events)
    ensures Inv(Run(w, events)) && CatchingUp(Run(w, events), from, reach)
    decreases |events|
  {
    if events != [] {
      var w' := Next(w, events[0]);
      assert events[0] in events;
      KeepsNext(w, events[0]);
      CatchesUp(w, events[0], from, reach);
      hide Inv, Next;
      forall e | e in events[1..] ensures e in events {
      }
      StaysCatchingUp(w', events[1..], from, reach);
    }
  }

  lemma CatchesUp(w: World, e: Event, from: nat, reach: nat)
    requires Inv(w) && CatchingUp(w, from, reach) && !e.Crash?
    ensures CatchingUp(Next(w, e), from, reach)
  {
    hide Layered, Since, Arrives;
    if w.phase.Applying? && w.phase.batch != [] {
      assert w.phase.batch[0].entry == w.log[w.cursor + 1 + 0];
    }
  }

  /** After one crash since the last whole pull the replica is the log up to its
      cursor exactly when every record written from there to where the crash left it,
      and not written again since, reads the same at both. */
  lemma OneCrashExactly(whole: seq<Event>, before: seq<Event>, after: seq<Event>)
    requires whole == [] || Run(START, whole).phase == Saving(false)
    requires NoCrash(before) && NoCrash(after)
    ensures var v := Run(START, whole + before);
            var w := Run(START, whole + before + [Crash] + after);
            var from, reach, to := v.saved + 1, v.cursor + 1, w.cursor + 1;
            && 0 <= from <= reach && 0 <= to <= |w.log|
            && (Agree(w.store, Replay(w.log[..to]), {})
                <==> forall r :: r in Touched(w.log, to, reach) && r !in Touched(w.log, from, to) ==>
                       At(w.log, reach, r) == At(w.log, to, r))
  {
    hide *;
    var u := Run(START, whole);
    var v := Run(START, whole + before);
    var v' := Next(v, Crash);
    var w := Run(START, whole + before + [Crash] + after);
    StartOk();
    KeepsRun(START, whole);
    WholeAtEnd(whole);
    RunThen(START, whole, before);
    KeepsRun(u, before);
    StaysWhole(u, before);
    KeepsCrash(v);
    CrashedOnce(v);
    RunThen(START, whole + before, [Crash]);
    OneEvent(v, Crash);
    RunThen(START, whole + before + [Crash], after);
    StaysCatchingUp(v', after, v.saved + 1, v.cursor + 1);
    CaughtUpExactly(w, v.saved + 1, v.cursor + 1);
  }

  lemma OneEvent(w: World, e: Event)
    ensures Run(w, [e]) == Next(w, e)
  {
    hide Next;
    assert |[e][1..]| == 0;
  }

  lemma WholeAtEnd(whole: seq<Event>)
    requires Inv(Run(START, whole))
    requires whole == [] || Run(START, whole).phase == Saving(false)
    ensures |Run(START, whole).layers| == 1
  {
    hide Layered;
  }

  lemma CrashedOnce(v: World)
    requires Inv(v) && |v.layers| == 1
    ensures 0 <= v.saved + 1 <= v.cursor + 1
    ensures CatchingUp(Next(v, Crash), v.saved + 1, v.cursor + 1)
  {
    hide Layered;
  }

  lemma CaughtUpExactly(w: World, from: nat, reach: nat)
    requires Inv(w) && CatchingUp(w, from, reach)
    ensures var to := w.cursor + 1;
            && 0 <= to <= |w.log|
            && (Agree(w.store, Replay(w.log[..to]), {})
                <==> forall r :: r in Touched(w.log, to, reach) && r !in Touched(w.log, from, to) ==>
                       At(w.log, reach, r) == At(w.log, to, r))
  {
    var to := w.cursor + 1;
    if |w.layers| == 1 {
      WholeReads(w);
      assert Touched(w.log, to, reach) == {};
    } else {
      StackedWithin(w.layers, to, |w.log|, |w.log|);
      hide Replay, Touched, Numbered, BatchOk;
      forall r: nat
        ensures Lookup(w.store, r) == if r in Touched(w.log, from, to) then At(w.log, to, r) else At(w.log, reach, r)
        ensures r !in Touched(w.log, to, reach) ==> At(w.log, reach, r) == At(w.log, to, r)
      {
        TwoLayers(w.log, w.layers, r);
        if r !in Touched(w.log, to, reach) {
          SameUntilTouched(w.log, to, reach, r);
        }
      }
      hide At;
    }
  }

  lemma TwoLayers(log: seq<Entry>, layers: seq<Stretch>, r: nat)
    requires |layers| == 2
    ensures Standing(log, layers, r)
         == if r in Touched(log, layers[0].from, layers[0].to) then layers[0].to else layers[1].to
  {
    assert layers[1..][0] == layers[1];
  }

  // ----- where the promise stops -----

  lemma {:induction false} RunSnoc(w: World, events: seq<Event>, e: Event)
    ensures Run(w, events + [e]) == Next(Run(w, events), e)
    decreases |events|
  {
    hide Next;
    if events == [] {
      assert [e][1..] == [] && [] + [e] == [e];
      assert Run(Next(w, e), []) == Next(w, e);
    } else {
      assert (events + [e])[1..] == events[1..] + [e];
      RunSnoc(Next(w, events[0]), events[1..], e);
    }
  }

  const ONE: Entry := Entry(0, 0, [1, END])
  const TWO: Entry := Entry(1, 0, [2, END])
  const THREE: Entry := Entry(2, 1, [3, END])

  lemma PullsThree(w: World)
    requires w == World([ONE, TWO, THREE], map[], -1, -1, Idle, [Stretch(0, 0)])
    ensures var w4 := Next(Next(Next(Next(w, Pull({})), Tick), Tick), Tick);
            w4 == World([ONE, TWO, THREE], map[0 := TWO.tokens, 1 := THREE.tokens], -1, 2, Applying([]),
                [Stretch(0, 3)])
  {
    SinceIs(w.log, 0, -1);
    assert w.log[0..] == w.log;
    hide Since;
    var b := [Wire(ONE, true), Wire(TWO, true), Wire(THREE, true)];
    assert Arrives(w.log, {}) == b;
    assert b[1..] == [Wire(TWO, true), Wire(THREE, true)] && b[1..][1..] == [Wire(THREE, true)];
    assert [Wire(THREE, true)][1..] == [];
    var w1 := Next(w, Pull({}));
    assert w1 == w.(phase := Applying(b));
    var w2 := Next(w1, Tick);
    assert w2 == World(w.log, map[0 := ONE.tokens], -1, 0, Applying(b[1..]), [Stretch(0, 1)]);
    var w3 := Next(w2, Tick);
    assert w3 == World(w.log, map[0 := TWO.tokens], -1, 1, Applying(b[1..][1..]), [Stretch(0, 2)]);
  }

  lemma PullsOne(w: World, store: Store)
    requires w == World([ONE, TWO, THREE], store, -1, -1, Idle, [Stretch(0, 0), Stretch(0, 3)])
    ensures var w5 := Next(Next(Next(Next(Next(w, Pull({1})), Tick), Tick), Tick), Tick);
            w5 == World([ONE, TWO, THREE], store[0 := ONE.tokens], 0, 0, Idle, [Stretch(0, 1), Stretch(0, 3)])
  {
    SinceIs(w.log, 0, -1);
    assert w.log[0..] == w.log;
    hide Since;
    var b := [Wire(ONE, true), Wire(TWO, false), Wire(THREE, true)];
    assert Arrives(w.log, {1}) == b;
    var w1 := Next(w, Pull({1}));
    assert w1 == w.(phase := Applying(b));
    var w2 := Next(w1, Tick);
    assert w2 == World(w.log, store[0 := ONE.tokens], -1, 0, Applying(b[1..]), [Stretch(0, 1), Stretch(0, 3)]);
    assert b[1..][0] == Wire(TWO, false);
    var w3 := Next(w2, Tick);
    assert w3 == World(w.log, store[0 := ONE.tokens], -1, 0, Saving(true), [Stretch(0, 1), Stretch(0, 3)]);
    var w4 := Next(w3, Tick);
    assert w4 == w3.(phase := Emptied);
  }

  const WRITTEN: seq<Event> := [] + [MasterWrites(0, ONE.tokens)] + [MasterWrites(0, TWO.tokens)]
      + [MasterWrites(1, THREE.tokens)]
  const APPLIED: seq<Event> := WRITTEN + [Pull({})] + [Tick] + [Tick] + [Tick]
  const HALTED: seq<Event> := APPLIED + [Crash] + [Pull({1})] + [Tick] + [Tick] + [Tick] + [Tick]

  lemma WritesThree()
    ensures Run(START, WRITTEN) == World([ONE, TWO, THREE], map[], -1, -1, Idle, [Stretch(0, 0)])
  {
    RunSnoc(START, [], MasterWrites(0, ONE.tokens));
    RunSnoc(START, [] + [MasterWrites(0, ONE.tokens)], MasterWrites(0, TWO.tokens));
    RunSnoc(START, [] + [MasterWrites(0, ONE.tokens)] + [MasterWrites(0, TWO.tokens)], MasterWrites(1, THREE.tokens));
    assert Run(START, []) == START;
    hide Run;
    assert Next(START, MasterWrites(0, ONE.tokens)).log == [ONE];
    assert [ONE] + [TWO] + [THREE] == [ONE, TWO, THREE];
  }

  lemma AppliesThree()
    ensures Run(START, APPLIED)
         == World([ONE, TWO, THREE], map[0 := TWO.tokens, 1 := THREE.tokens], -1, 2, Applying([]), [Stretch(0, 3)])
  {
    WritesThree();
    PullsThree(Run(START, WRITTEN));
    hide Next;
    RunSnoc(START, WRITTEN, Pull({}));
    RunSnoc(START, WRITTEN + [Pull({})], Tick);
    RunSnoc(START, WRITTEN + [Pull({})] + [Tick], Tick);
    RunSnoc(START, WRITTEN + [Pull({})] + [Tick] + [Tick], Tick);
  }

  lemma HaltsAgain()
    ensures Run(START, HALTED)
         == World([ONE, TWO, THREE], map[0 := ONE.tokens, 1 := THREE.tokens], 0, 0, Idle,
            [Stretch(0, 1), Stretch(0, 3)])
  {
    AppliesThree();
    var store: Store := map[0 := TWO.tokens, 1 := THREE.tokens];
    var w := Next(Run(START, APPLIED), Crash);
    assert w == World([ONE, TWO, THREE], store, -1, -1, Idle, [Stretch(0, 0), Stretch(0, 3)]);
    PullsOne(w, store);
    assert store[0 := ONE.tokens] == map[0 := ONE.tokens, 1 := THREE.tokens];
    hide Next;
    RunSnoc(START, APPLIED, Crash);
    RunSnoc(START, APPLIED + [Crash], Pull({1}));
    RunSnoc(START, APPLIED + [Crash] + [Pull({1})], Tick);
    RunSnoc(START, APPLIED + [Crash] + [Pull({1})] + [Tick], Tick);
    RunSnoc(START, APPLIED + [Crash] + [Pull({1})] + [Tick] + [Tick], Tick);
    RunSnoc(START, APPLIED + [Crash] + [Pull({1})] + [Tick] + [Tick] + [Tick], Tick);
  }

  /** A crash before the cursor is saved, and then a pull that halts: the replica is
      no prefix of the log at all, idle and cursor saved. */
  lemma HaltAfterCrash(k: nat)
    requires k <= 3
    ensures var w := Run(START, HALTED);
            && w.phase == Idle && w.log == [ONE, TWO, THREE]
            && !Agree(w.store, Replay(w.log[..k]), {})
  {
    HaltsAgain();
    var log := [ONE, TWO, THREE];
    ReplayStep(log, 0);
    ReplayStep(log, 1);
    ReplayStep(log, 2);
    assert |log[..0]| == 0;
    assert Replay(log[..0]) == map[];
    hide Run, Replay;
    var t := Replay(log[..k]);
    var store: Store := map[0 := ONE.tokens, 1 := THREE.tokens];
    assert Lookup(store, 0) == Some(ONE.tokens) && Lookup(store, 1) == Some(THREE.tokens);
    if k == 3 {
      assert Lookup(t, 0) == Some(TWO.tokens);
    } else {
      assert Lookup(t, 1) == None;
    }
  }

  // ----- the object -----

  class Replica {
    var store: Store
    var savedCursor: int
    var lastApplied: int
    var errors: nat

    ghost function State(log: seq<Entry>, phase: Phase, layers: seq<Stretch>): World
      reads this
    {
      World(log, store, savedCursor, lastApplied, phase, layers)
    }

    constructor (store: Store, savedCursor: int)
      ensures this.store == store && this.savedCursor == savedCursor && lastApplied == savedCursor && errors == 0
    {
      this.store, this.savedCursor, lastApplied, errors := store, savedCursor, savedCursor, 0;
    }

    /** A pull, undisturbed: what arrives is applied up to the first bad entry, the
        cursor stays at the last good one and is saved. */
    method Sync(response: seq<Wire>, ghost log: seq<Entry>, ghost layers: seq<Stretch>) returns (applied: nat)
      modifies this
      ensures response == [] ==> State(log, Idle, layers) == old(State(log, Idle, layers)) && applied == 0
      ensures response != [] ==>
        exists layers' :: State(log, Idle, layers') == Settle(old(State(log, Applying(response), layers)))
      ensures applied == Good(response)
      ensures errors == old(errors) + (if applied < |response| then 1 else 0)
    {
      applied := 0;
      if response == [] {
        return;
      }
      ghost var r := layers;
      assert response[0..] == response;
      while applied < |response|
        invariant 0 <= applied <= |response|
        invariant savedCursor == old(savedCursor) && errors == old(errors)
        invariant Settle(State(log, Applying(response[applied..]), r))
                  == Settle(old(State(log, Applying(response), layers)))
        invariant Good(response) == applied + Good(response[applied..])
      {
        assert response[applied..][0] == response[applied] && response[applied..][1..] == response[applied + 1..];
        if !response[applied].good {
          errors := errors + 1;
          break;
        }
        ghost var before := State(log, Applying(response[applied..]), r);
        store := Write(store, response[applied].entry);
        lastApplied := response[applied].entry.number;
        r := DoTick(before).layers;
        applied := applied + 1;
        assert State(log, Applying(response[applied..]), r) == DoTick(before);
      }
      ghost var halting := State(log, Applying(response[applied..]), r);
      savedCursor := -1;
      savedCursor := lastApplied;
      ghost var saving, emptied := DoTick(halting), DoTick(DoTick(halting));
      assert State(log, Idle, r) == DoTick(emptied);
      assert Settle(halting) == Settle(saving) == Settle(emptied) == Settle(DoTick(emptied));
      assert Settle(halting) == State(log, Idle, r);
    }
  }

  /** How many entries of a response are good before the first bad one. */
  function Good(response: seq<Wire>): nat {
    if response == [] || !response[0].good then 0 else 1 + Good(response[1..])
  }

  function Work(w: World): nat {
    match w.phase
    case Idle => 0
    case Applying(batch) => |batch| + 3
    case Saving(_) => 2
    case Emptied => 1
  }

  /** The replica carries on until its pull is over. */
  function Settle(w: World): World
    decreases Work(w)
  {
    if w.phase.Idle? then w else Settle(DoTick(w))
  }
}
