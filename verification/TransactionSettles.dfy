/** What a phase of a transaction comes to when nothing interrupts it
    (python/griddb_transactions.py). */
module TransactionSettles {
  import opened Lexicon
  import opened Transactions

  /** The writes of a commit, applied in order. */
  function ApplyAll(ws: seq<Write>, s: Store): Store {
    if ws == [] then s else ApplyAll(ws[1..], CommitOne(ws[0], s))
  }

  lemma {:induction false} SettleRecovering(w: World)
    requires w.phase.Recovering?
    ensures Settle(w) == Settle(LookForTorn(w.(store := Replay(w.phase.todo, w.store), stale := false), None))
    decreases |w.phase.todo|
  {
    hide LookForTorn, ReplayOne;
    if w.phase.todo != [] {
      var w' := DoTick(w);
      SettleRecovering(w');
      var s := Replay(w.phase.todo, w.store);
      assert Settle(w) == Settle(w');
      LookIgnoresPhase(w'.(store := s, stale := false), w.phase);
      assert w'.(store := s, stale := false).(phase := w.phase) == w.(store := s, stale := false);
    } else {
      assert w.(store := Replay(w.phase.todo, w.store), stale := false) == w.(stale := false);
    }
  }

  lemma LookIgnoresPhase(w: World, phase: Phase)
    ensures LookForTorn(w.(phase := phase), None) == LookForTorn(w, None)
  {
  }

  lemma {:induction false} SettleFinishing(w: World)
    requires w.phase.Finishing?
    ensures Settle(w)
         == Released(w.(store := GridDelete(Replay(w.phase.todo, w.store), DIRTY_RID)), w.phase.opens)
    decreases |w.phase.todo|
  {
    hide ReplayOne, GridDelete;
    if w.phase.todo != [] {
      SettleFinishing(DoTick(w));
    }
  }

  lemma {:induction false} SettleApplying(w: World)
    requires w.phase.Applying?
    ensures Settle(w) == w.(store := GridDelete(ApplyAll(w.phase.todo, w.store), DIRTY_RID), phase := Idle)
    decreases |w.phase.todo|
  {
    hide CommitOne, GridDelete;
    if w.phase.todo != [] {
      SettleApplying(DoTick(w));
    }
  }

  /** The grid after a look for a torn transaction that nothing interrupts. */
  function Finished(log: seq<Entry>, s: Store): Store {
    var torn := TornId(s);
    if torn.None? then s else GridDelete(Replay(Select(log, {torn.value}), s), DIRTY_RID)
  }

  lemma SettleLook(w: World, opens: Option<nat>)
    ensures Settle(LookForTorn(w, opens)) == Released(w.(store := Finished(w.log, w.store)), opens)
  {
    hide TornId, Replay, Select, GridDelete;
    if TornId(w.store).Some? {
      SettleFinishing(LookForTorn(w, opens));
    }
  }

  lemma SettleCommit(w: World)
    requires w.phase.Open?
    ensures var c := Next(w, Commit);
            var marked := GridWrite(w.store, DIRTY_RID, Marker(w.phase.id));
            Settle(c) == c.(store := GridDelete(ApplyAll(w.phase.pending, marked), DIRTY_RID), phase := Idle)
  {
    hide Marker, GridWrite, GridDelete, ApplyAll;
    var c := Next(w, Commit);
    SettleApplying(DoTick(c));
    assert Settle(c) == Settle(DoTick(c));
  }
}
