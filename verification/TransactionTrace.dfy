/** The exact contents of the grid under any mix of transactions, recoveries and
    crashes, and so exactly when it reads as the committed transactions
    (python/griddb_transactions.py). */
module TransactionTrace {
  import opened Lexicon
  import opened Transactions
  import opened TransactionReads

  /** Committed writes from..to, applied one after another, in a replay or in the
      commit itself. */
  datatype Stretch = Stretch(from: nat, to: nat, replayed: bool)

  /** A world and, as an observer, the stretches applied since the last recovery that
      came through, that recovery's own included; the latest first. */
  datatype Traced = Traced(w: World, layers: seq<Stretch>)

  /** Where the writes of the last transaction begin. */
  function LastFrom(history: seq<Txn>): nat {
    if history == [] then 0 else |Writes(Earlier(history))|
  }

  function Longer(layers: seq<Stretch>): seq<Stretch> {
    if layers == [] then [] else [layers[0].(to := layers[0].to + 1)] + layers[1..]
  }

  function Looked(w: World, layers: seq<Stretch>): seq<Stretch> {
    if TornId(w.store).Some? then [Stretch(LastFrom(w.history), LastFrom(w.history), true)] + layers else layers
  }

  function Layers(t: Traced, e: Event): seq<Stretch> {
    var w := t.w;
    match e
    case Recover => if w.phase.Idle? then [Stretch(0, 0, true)] + t.layers else t.layers
    case Begin(id) => if w.phase.Idle? && id !in Ids(w.log) then Looked(w, t.layers) else t.layers
    case Tick =>
      (match w.phase
       case Recovering(todo) =>
         if todo != [] then Longer(t.layers) else Looked(w, t.layers[..if t.layers == [] then 0 else 1])
       case Finishing(todo, _) => if todo != [] then Longer(t.layers) else t.layers
       case Marking(_, _) => [Stretch(LastFrom(w.history), LastFrom(w.history), false)] + t.layers
       case Applying(_, todo) => if todo != [] then Longer(t.layers) else t.layers
       case _ => t.layers)
    case _ => t.layers
  }

  function Follow(t: Traced, events: seq<Event>): Traced
    decreases |events|
  {
    if events == [] then t else Follow(Traced(Next(t.w, events[0]), Layers(t, events[0])), events[1..])
  }

  lemma {:induction false} FollowsRun(t: Traced, events: seq<Event>)
    ensures Follow(t, events).w == Run(t.w, events)
    decreases |events|
  {
    hide Next, Layers;
    if events != [] {
      FollowsRun(Traced(Next(t.w, events[0]), Layers(t, events[0])), events[1..]);
    }
  }

  // ----- what a record shows -----

  function Shown(x: Write, replayed: bool): Option<seq<Token>> {
    if replayed then AfterReplay(x) else AfterCommit(x)
  }

  /** What the latest stretch that wrote record r left there; what it was at the very
      first if none did. */
  function Standing(ws: seq<Write>, base: Store, layers: seq<Stretch>, r: nat): Option<seq<Token>>
    requires Inside(layers, |ws|)
  {
    if layers == [] then Read(base, r)
    else
      var part := ws[layers[0].from..layers[0].to];
      var x := LastWrite(part, r);
      if x.Some? then Shown(x.value, layers[0].replayed) else Standing(ws, base, layers[1..], r)
  }

  predicate Inside(layers: seq<Stretch>, n: nat) {
    forall k :: 0 <= k < |layers| ==> layers[k].from <= layers[k].to <= n
  }

  ghost predicate Stands(ws: seq<Write>, base: Store, layers: seq<Stretch>, s: Store) {
    Inside(layers, |ws|) && forall r: nat :: r != DIRTY_RID ==> Read(s, r) == Standing(ws, base, layers, r)
  }

  /** The latest stretch is the one under way. */
  ghost predicate UnderWay(phase: Phase, history: seq<Txn>, layers: seq<Stretch>) {
    var ws := Writes(history);
    match phase
    case Recovering(todo) =>
      layers != [] && layers[0].replayed && layers[0].from == 0 && layers[0].to <= |ws| && todo == ws[layers[0].to..]
    case Finishing(todo, _) => layers != [] && layers[0].replayed && layers[0].to <= |ws| && todo == ws[layers[0].to..]
    case Applying(_, todo) => layers != [] && !layers[0].replayed && layers[0].to <= |ws| && todo == ws[layers[0].to..]
    case _ => true
  }

  ghost predicate TracedOk(t: Traced, base: Store) {
    && Inv(t.w, base)
    && Stands(Writes(t.w.history), base, t.layers, t.w.store)
    && UnderWay(t.w.phase, t.w.history, t.layers)
  }

  lemma {:induction false} StandingGrows(ws: seq<Write>, more: seq<Write>, base: Store, layers: seq<Stretch>, r: nat)
    requires Inside(layers, |ws|)
    ensures Inside(layers, |ws + more|) && Standing(ws + more, base, layers, r) == Standing(ws, base, layers, r)
  {
    if layers != [] {
      var l := layers[0];
      assert (ws + more)[l.from..l.to] == ws[l.from..l.to];
      InsideTail(layers, |ws|);
      StandingGrows(ws, more, base, layers[1..], r);
      hide LastWrite;
    }
  }

  lemma InsideTail(layers: seq<Stretch>, n: nat)
    requires Inside(layers, n) && layers != []
    ensures Inside(layers[1..], n) && layers[0].from <= layers[0].to <= n
  {
  }

  /** A stretch that is just beginning shows nothing yet. */
  lemma StandingPush(ws: seq<Write>, base: Store, layers: seq<Stretch>, l: Stretch, r: nat)
    requires Inside(layers, |ws|) && l.from == l.to <= |ws|
    ensures Inside([l] + layers, |ws|) && Standing(ws, base, [l] + layers, r) == Standing(ws, base, layers, r)
  {
    assert ([l] + layers)[1..] == layers;
    assert ws[l.from..l.to] == [];
  }

  lemma LastWriteSnoc(ws: seq<Write>, x: Write, r: nat)
    ensures LastWrite(ws + [x], r) == if x.rid == r then Some(x) else LastWrite(ws, r)
  {
    assert (ws + [x])[..|ws|] == ws;
  }

  lemma StandingLatest(ws: seq<Write>, base: Store, layers: seq<Stretch>, r: nat)
    requires Inside(layers, |ws|) && layers != []
    ensures Inside(layers[1..], |ws|) && layers[0].from <= layers[0].to <= |ws|
    ensures Standing(ws, base, layers, r)
         == (var x := LastWrite(ws[layers[0].from..layers[0].to], r);
             if x.Some? then Shown(x.value, layers[0].replayed) else Standing(ws, base, layers[1..], r))
  {
    InsideTail(layers, |ws|);
    hide LastWrite, Shown;
  }

  lemma LongerIs(layers: seq<Stretch>, n: nat)
    requires Inside(layers, n) && layers != [] && layers[0].to < n
    ensures var more := Longer(layers);
            && Inside(more, n) && more != [] && more[1..] == layers[1..]
            && more[0] == layers[0].(to := layers[0].to + 1)
  {
  }

  /** One more write of the latest stretch. */
  lemma StandingLonger(ws: seq<Write>, base: Store, layers: seq<Stretch>, r: nat)
    requires Inside(layers, |ws|) && layers != [] && layers[0].to < |ws|
    ensures Inside(Longer(layers), |ws|)
    ensures Standing(ws, base, Longer(layers), r)
         == (var x := ws[layers[0].to];
             if x.rid == r then Shown(x, layers[0].replayed) else Standing(ws, base, layers, r))
  {
    hide *;
    var l := layers[0];
    LongerIs(layers, |ws|);
    StandingLatest(ws, base, layers, r);
    StandingLatest(ws, base, Longer(layers), r);
    assert ws[l.from..l.to + 1] == ws[l.from..l.to] + [ws[l.to]];
    LastWriteSnoc(ws[l.from..l.to], ws[l.to], r);
  }

  lemma {:induction false} StandingUntouched(ws: seq<Write>, base: Store, layers: seq<Stretch>, r: nat)
    requires Inside(layers, |ws|) && LastWrite(ws, r).None?
    ensures Standing(ws, base, layers, r) == Read(base, r)
  {
    if layers != [] {
      var l := layers[0];
      InsideTail(layers, |ws|);
      StandingUntouched(ws, base, layers[1..], r);
      LastWriteOf(ws, r);
      LastWriteOf(ws[l.from..l.to], r);
      assert forall x :: x in ws[l.from..l.to] ==> x in ws;
      hide LastWrite;
    }
  }

  /** A replay of everything hides the stretches before it. */
  lemma StandingWhole(ws: seq<Write>, base: Store, layers: seq<Stretch>, r: nat)
    requires Inside(layers, |ws|) && layers != [] && layers[0].from == 0 && layers[0].to == |ws|
    ensures Inside(layers[..1], |ws|) && Standing(ws, base, layers[..1], r) == Standing(ws, base, layers, r)
  {
    assert ws[0..|ws|] == ws && layers[..1][1..] == [];
    InsideTail(layers, |ws|);
    if LastWrite(ws, r).None? {
      StandingUntouched(ws, base, layers[1..], r);
    }
    hide LastWrite;
  }

  // ----- step by step -----

  lemma StandsLonger(ws: seq<Write>, base: Store, layers: seq<Stretch>, s: Store)
    requires Stands(ws, base, layers, s) && layers != [] && layers[0].to < |ws|
    ensures var x := ws[layers[0].to];
            Stands(ws, base, Longer(layers), if layers[0].replayed then ReplayOne(x, s) else CommitOne(x, s))
  {
    hide Standing, Longer;
    var x := ws[layers[0].to];
    var s' := if layers[0].replayed then ReplayOne(x, s) else CommitOne(x, s);
    StandingLonger(ws, base, layers, 0);
    forall r: nat | r != DIRTY_RID ensures Read(s', r) == Standing(ws, base, Longer(layers), r) {
      StandingLonger(ws, base, layers, r);
    }
  }

  lemma StandsSame(ws: seq<Write>, base: Store, layers: seq<Stretch>, s: Store, s': Store)
    requires Stands(ws, base, layers, s) && Alike(s', s, {})
    ensures Stands(ws, base, layers, s')
  {
    hide Standing, Read;
  }

  lemma StandsPush(ws: seq<Write>, base: Store, layers: seq<Stretch>, l: Stretch, s: Store)
    requires Stands(ws, base, layers, s) && l.from == l.to <= |ws|
    ensures Stands(ws, base, [l] + layers, s)
  {
    hide Standing, Read;
    StandingPush(ws, base, layers, l, 0);
    forall r: nat | r != DIRTY_RID ensures Read(s, r) == Standing(ws, base, [l] + layers, r) {
      StandingPush(ws, base, layers, l, r);
    }
  }

  lemma StandsGrows(ws: seq<Write>, more: seq<Write>, base: Store, layers: seq<Stretch>, s: Store)
    requires Stands(ws, base, layers, s)
    ensures Stands(ws + more, base, layers, s)
  {
    hide Standing, Read;
    StandingGrows(ws, more, base, layers, 0);
    forall r: nat | r != DIRTY_RID ensures Read(s, r) == Standing(ws + more, base, layers, r) {
      StandingGrows(ws, more, base, layers, r);
    }
  }

  lemma StandsWhole(ws: seq<Write>, base: Store, layers: seq<Stretch>, s: Store)
    requires Stands(ws, base, layers, s) && layers != [] && layers[0].from == 0 && layers[0].to == |ws|
    ensures Stands(ws, base, layers[..1], s)
  {
    hide Standing, Read;
    StandingWhole(ws, base, layers, 0);
    forall r: nat | r != DIRTY_RID ensures Read(s, r) == Standing(ws, base, layers[..1], r) {
      StandingWhole(ws, base, layers, r);
    }
  }

  lemma LastWrites(history: seq<Txn>)
    requires history != []
    ensures LastFrom(history) <= |Writes(history)| && Writes(history)[LastFrom(history)..] == Last(history).writes
  {
  }

  /** The look for a torn transaction. */
  lemma LookStands(w: World, base: Store, opens: Option<nat>, layers: seq<Stretch>)
    requires LogTells(w.log, w.history) && DirtyIsLast(w) && Stands(Writes(w.history), base, layers, w.store)
    ensures var v := LookForTorn(w, opens);
            && Stands(Writes(v.history), base, Looked(w, layers), v.store)
            && UnderWay(v.phase, v.history, Looked(w, layers))
  {
    if TornId(w.store).Some? {
      assert !Clean(w.store) by {
        if Clean(w.store) {
          CleanTorn(w.store);
        }
      }
      var last := Last(w.history);
      TornNamed(w.store, last.id);
      assert last in w.history && Select(w.log, {last.id}) == last.writes;
      LastWrites(w.history);
      var p := LastFrom(w.history);
      StandsPush(Writes(w.history), base, layers, Stretch(p, p, true), w.store);
      hide LogTells, Stands, TornId, Select, DirtyIsLast, Clean, LastFrom, Writes;
    }
  }

  lemma TracedTick(t: Traced, base: Store)
    requires TracedOk(t, base)
    ensures TracedOk(Traced(Next(t.w, Tick), Layers(t, Tick)), base)
  {
    KeepsTick(t.w, base);
    hide Inv;
    match t.w.phase
    case Recovering(_) => TracedRecovering(t, base);
    case Finishing(_, _) => TracedFinishing(t, base);
    case Marking(_, _) => TracedMarking(t, base);
    case Applying(_, _) => TracedApplying(t, base);
    case _ =>
  }

  /** The next write of the stretch under way. */
  lemma LongerStands(ws: seq<Write>, base: Store, layers: seq<Stretch>, s: Store, todo: seq<Write>)
    requires Stands(ws, base, layers, s) && layers != [] && layers[0].to <= |ws|
    requires todo == ws[layers[0].to..] && todo != []
    ensures var more := Longer(layers);
            && more != [] && more[0] == layers[0].(to := layers[0].to + 1) && more[0].to <= |ws|
            && todo[1..] == ws[more[0].to..]
            && Stands(ws, base, more, if layers[0].replayed then ReplayOne(todo[0], s) else CommitOne(todo[0], s))
  {
    LongerIs(layers, |ws|);
    StandsLonger(ws, base, layers, s);
    hide Stands, Longer, ReplayOne, CommitOne, Inside;
  }

  lemma TracedRecovering(t: Traced, base: Store)
    requires TracedOk(t, base) && t.w.phase.Recovering? && Inv(DoTick(t.w), base)
    ensures TracedOk(Traced(DoTick(t.w), Layers(t, Tick)), base)
  {
    hide Inv, Stands, Writes, ReplayOne, Longer;
    var w, ws := t.w, Writes(t.w.history);
    if w.phase.todo != [] {
      hide LookForTorn, Looked;
      LongerStands(ws, base, t.layers, w.store, w.phase.todo);
    } else {
      StandsWhole(ws, base, t.layers, w.store);
      RecoveredLook(t, base);
    }
  }

  lemma RecoveredLook(t: Traced, base: Store)
    requires TracedOk(t, base) && t.w.phase == Recovering([]) && Inv(DoTick(t.w), base)
    requires Stands(Writes(t.w.history), base, t.layers[..1], t.w.store)
    ensures TracedOk(Traced(DoTick(t.w), Layers(t, Tick)), base)
  {
    hide Stands, Writes, TornId, LookForTorn, LogTells, Alike, PhaseOk, Clean;
    var u := t.w.(stale := false);
    LookStands(u, base, None, t.layers[..1]);
    assert Looked(u, t.layers[..1]) == Looked(t.w, t.layers[..1]);
  }

  lemma TracedFinishing(t: Traced, base: Store)
    requires TracedOk(t, base) && t.w.phase.Finishing? && Inv(DoTick(t.w), base)
    ensures TracedOk(Traced(DoTick(t.w), Layers(t, Tick)), base)
  {
    hide Inv, Stands, Writes, ReplayOne, Longer, LookForTorn, Looked;
    var w, ws := t.w, Writes(t.w.history);
    if w.phase.todo != [] {
      LongerStands(ws, base, t.layers, w.store, w.phase.todo);
    } else {
      DirtyFrame(w.store, []);
      StandsSame(ws, base, t.layers, w.store, GridDelete(w.store, DIRTY_RID));
      hide GridDelete;
    }
  }

  lemma TracedMarking(t: Traced, base: Store)
    requires TracedOk(t, base) && t.w.phase.Marking? && Inv(DoTick(t.w), base)
    ensures TracedOk(Traced(DoTick(t.w), Layers(t, Tick)), base)
  {
    hide Inv, Stands, Writes, GridWrite, Marker, LastFrom;
    var w, ws := t.w, Writes(t.w.history);
    var s := GridWrite(w.store, DIRTY_RID, Marker(w.phase.id));
    assert w.history != [] && Last(w.history) == Txn(w.phase.id, w.phase.pending) by {
      MarkingFacts(w, base);
    }
    LastWrites(w.history);
    DirtyFrame(w.store, Marker(w.phase.id));
    StandsSame(ws, base, t.layers, w.store, s);
    StandsPush(ws, base, t.layers, Stretch(LastFrom(w.history), LastFrom(w.history), false), s);
  }

  lemma TracedApplying(t: Traced, base: Store)
    requires TracedOk(t, base) && t.w.phase.Applying? && Inv(DoTick(t.w), base)
    ensures TracedOk(Traced(DoTick(t.w), Layers(t, Tick)), base)
  {
    hide Inv, Stands, Writes, CommitOne, Longer, LookForTorn, Looked;
    var w, ws := t.w, Writes(t.w.history);
    if w.phase.todo != [] {
      LongerStands(ws, base, t.layers, w.store, w.phase.todo);
    } else {
      DirtyFrame(w.store, []);
      StandsSame(ws, base, t.layers, w.store, GridDelete(w.store, DIRTY_RID));
      hide GridDelete;
    }
  }

  lemma TracedNext(t: Traced, base: Store, e: Event)
    requires TracedOk(t, base)
    ensures TracedOk(Traced(Next(t.w, e), Layers(t, e)), base)
  {
    KeepsNext(t.w, base, e);
    match e
    case Tick => TracedTick(t, base);
    case Recover => TracedRecover(t, base);
    case Begin(id) => TracedBegin(t, base, id);
    case Commit => TracedCommit(t, base);
    case _ =>
      hide Inv, Stands, Writes, Ids;
  }

  lemma TracedRecover(t: Traced, base: Store)
    requires TracedOk(t, base) && Inv(Next(t.w, Recover), base)
    ensures TracedOk(Traced(Next(t.w, Recover), Layers(t, Recover)), base)
  {
    if t.w.phase.Idle? {
      RecoverStarts(t.w, base);
      StandsPush(Writes(t.w.history), base, t.layers, Stretch(0, 0, true), t.w.store);
      hide Inv, Stands, Writes, Next;
    }
  }

  lemma TracedBegin(t: Traced, base: Store, id: nat)
    requires TracedOk(t, base) && Inv(Next(t.w, Begin(id)), base)
    ensures TracedOk(Traced(Next(t.w, Begin(id)), Layers(t, Begin(id))), base)
  {
    if t.w.phase.Idle? && id !in Ids(t.w.log) {
      LookStands(t.w, base, Some(id), t.layers);
    }
    hide Inv, Stands, Writes, TornId, LookForTorn, UnderWay, Looked, Ids;
  }

  lemma TracedCommit(t: Traced, base: Store)
    requires TracedOk(t, base) && Inv(Next(t.w, Commit), base)
    ensures TracedOk(Traced(Next(t.w, Commit), Layers(t, Commit)), base)
  {
    hide Inv, Stands, Writes;
    var w := t.w;
    if w.phase.Open? {
      var txn := Txn(w.phase.id, w.phase.pending);
      WritesPush(w.history, txn);
      StandsGrows(Writes(w.history), txn.writes, base, t.layers, w.store);
    }
  }

  lemma {:induction false} TracedRun(t: Traced, base: Store, events: seq<Event>)
    requires TracedOk(t, base)
    ensures TracedOk(Follow(t, events), base)
    decreases |events|
  {
    hide TracedOk, Next, Layers;
    if events != [] {
      TracedNext(t, base, events[0]);
      TracedRun(Traced(Next(t.w, events[0]), Layers(t, events[0])), base, events[1..]);
    }
  }

  // ----- what every reader sees -----

  function Traces(base: Store, events: seq<Event>): Traced {
    Follow(Traced(Fresh(base), []), events)
  }

  lemma EveryTrace(base: Store, events: seq<Event>)
    requires Clean(base)
    ensures TracedOk(Traces(base, events), base) && Traces(base, events).w == Run(Fresh(base), events)
  {
    EveryRun(base, []);
    assert Run(Fresh(base), []) == Fresh(base);
    TracedRun(Traced(Fresh(base), []), base, events);
    FollowsRun(Traced(Fresh(base), []), events);
    hide Follow, Run;
  }

  /** At every moment of every run, crashes and all, each record reads as the latest
      stretch that wrote it left it. */
  lemma GridReads(base: Store, events: seq<Event>, r: nat)
    requires Clean(base) && r != DIRTY_RID
    ensures var w, layers := Run(Fresh(base), events), Traces(base, events).layers;
            Inside(layers, |Writes(w.history)|) && Read(w.store, r) == Standing(Writes(w.history), base, layers, r)
  {
    EveryTrace(base, events);
    hide Run, Fresh, Inv, Traces, Standing, Read, Writes, Inside;
  }

  /** What record r reads as when every committed transaction is replayed. */
  function Committed(ws: seq<Write>, base: Store, r: nat): Option<seq<Token>> {
    if LastWrite(ws, r).Some? then AfterReplay(LastWrite(ws, r).value) else Read(base, r)
  }

  /** Exactly when a reader sees the committed transactions, at any moment of any run
      with any crashes: when each record's latest stretch left it as the last
      committed write to it does. */
  lemma ReadsCommittedExactly(base: Store, events: seq<Event>)
    requires Clean(base)
    ensures var w, layers := Run(Fresh(base), events), Traces(base, events).layers;
            var ws := Writes(w.history);
            && Inside(layers, |ws|)
            && (Alike(w.store, Fold(w.history, base), {})
                <==> forall r: nat :: r != DIRTY_RID ==> Standing(ws, base, layers, r) == Committed(ws, base, r))
  {
    var w := Run(Fresh(base), events);
    EveryTrace(base, events);
    hide Run, Fresh, Inv, Traces, Standing, Read, Fold, Writes, Inside, Committed;
    forall r: nat ensures Read(Fold(w.history, base), r) == Committed(Writes(w.history), base, r) {
      FoldCommitted(w.history, base, r);
    }
  }

  lemma FoldCommitted(history: seq<Txn>, base: Store, r: nat)
    ensures Read(Fold(history, base), r) == Committed(Writes(history), base, r)
  {
    ReplayReads(Writes(history), base, r);
    hide Writes, LastWrite, Replay, Read, AfterReplay;
  }
}
