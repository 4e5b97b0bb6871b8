/** The transactional grid as its methods run it, undisturbed: each call takes the
    machine of Transactions from its first disk effect to its last. */
module TransactionalGrids {
  import opened Lexicon
  import opened Transactions
  import opened TransactionSettles

  lemma {:induction false} ApplySnoc(ws: seq<Write>, x: Write, s: Store)
    ensures ApplyAll(ws + [x], s) == CommitOne(x, ApplyAll(ws, s))
  {
    hide CommitOne;
    if ws == [] {
      assert [] + [x] == [x] && [x][1..] == [];
      assert ApplyAll([], CommitOne(x, s)) == CommitOne(x, s);
    } else {
      assert (ws + [x])[1..] == ws[1..] + [x];
      ApplySnoc(ws[1..], x, CommitOne(ws[0], s));
    }
  }

  /** One more entry replayed. */
  lemma SelectStep(log: seq<Entry>, k: nat, ids: set<int>, s: Store)
    requires k < |log|
    ensures Replay(Select(log[..k + 1], ids), s)
         == if log[k].flag == Pending && log[k].txn in ids
            then ReplayOne(Write(log[k].rid, log[k].tokens), Replay(Select(log[..k], ids), s))
            else Replay(Select(log[..k], ids), s)
  {
    hide ReplayOne;
    var e := log[k];
    assert log[..k + 1] == log[..k] + [e];
    SelectAppend(log[..k], [e], ids);
    assert [e][1..] == [];
    assert Select([e][1..], ids) == [];
    ReplayAppend(Select(log[..k], ids), Select([e], ids), s);
    if e.flag == Pending && e.txn in ids {
      var x := Write(e.rid, e.tokens);
      assert Select([e], ids) == [x];
      assert [x][1..] == [];
      var t := Replay(Select(log[..k], ids), s);
      assert Replay([x], t) == Replay([], ReplayOne(x, t));
    }
  }

  class TransactionalGrid {
    var log: seq<Entry>
    var store: Store
    var active: Option<Txn>
    ghost var history: seq<Txn>
    ghost var stale: bool

    ghost function State(): World
      reads this
    {
      World(log, store, if active.Some? then Open(active.value.id, active.value.writes) else Idle, history, stale)
    }

    /** Opening a grid recovers it. */
    constructor (log: seq<Entry>, store: Store, ghost history: seq<Txn>, ghost stale: bool)
      ensures State() == Settle(Next(World(log, store, Idle, history, stale), Event.Recover))
    {
      this.log, this.store, this.active, this.history, this.stale := log, store, None, history, stale;
      new;
      Recover();
    }

    method ReplayEntries(ids: set<int>)
      modifies this`store
      ensures store == Replay(Select(log, ids), old(store))
    {
      assert log[..0] == [];
      var k := 0;
      while k < |log|
        invariant k <= |log|
        invariant store == Replay(Select(log[..k], ids), old(store))
      {
        SelectStep(log, k, ids, old(store));
        var e := log[k];
        if e.flag == Pending && e.txn in ids {
          if |e.tokens| == 3 && e.tokens[0] == 0 {
            store := GridDelete(store, e.rid);
          } else {
            store := GridWrite(store, e.rid, e.tokens);
          }
        }
        k := k + 1;
      }
      assert log[..|log|] == log;
    }

    method Recover()
      requires active.None?
      modifies this
      ensures State() == Settle(Next(old(State()), Event.Recover))
    {
      var committed := {};
      var k := 0;
      while k < |log|
        invariant k <= |log|
        invariant committed == CommittedIds(log[..k])
      {
        assert log[..k + 1] == log[..k] + [log[k]];
        if log[k].flag == Committed {
          committed := committed + {log[k].txn};
        }
        k := k + 1;
      }
      assert log[..|log|] == log;
      ReplayEntries(committed);
      stale := false;
      ghost var w := State();
      FinishDirty();
      SettleLook(w, None);
      SettleRecovering(Next(old(State()), Event.Recover));
    }

    method FinishDirty()
      modifies this`store
      ensures store == Finished(log, old(store))
    {
      var dirty := Read(store, DIRTY_RID);
      if dirty.None? {
        return;
      }
      var nums := TokenParser.NumbersIn(dirty.value);
      if nums == [] {
        return;
      }
      ReplayEntries({nums[|nums| - 1]});
      store := GridDelete(store, DIRTY_RID);
    }

    /** Refused while a transaction is open; ids are new. */
    method Begin(id: nat) returns (ok: bool)
      requires id !in Ids(log)
      modifies this
      ensures ok == old(active).None?
      ensures State() == if ok then Settle(Next(old(State()), Event.Begin(id))) else old(State())
    {
      if active.Some? {
        return false;
      }
      FinishDirty();
      SettleLook(old(State()), Some(id));
      active := Some(Txn(id, []));
      return true;
    }

    method Put(rid: nat, tokens: seq<Token>) returns (ok: bool)
      requires rid != DIRTY_RID
      modifies this
      ensures ok == old(active).Some?
      ensures State() == Next(old(State()), Event.Put(rid, tokens))
    {
      if active.None? {
        return false;
      }
      log := log + [Entry(active.value.id, rid, tokens, Pending)];
      active := Some(Txn(active.value.id, active.value.writes + [Write(rid, tokens)]));
      return true;
    }

    method Delete(rid: nat) returns (ok: bool)
      requires rid != DIRTY_RID
      modifies this
      ensures ok == old(active).Some?
      ensures State() == Next(old(State()), Event.Delete(rid))
    {
      if active.None? {
        return false;
      }
      log := log + [Entry(active.value.id, rid, TOMBSTONE, Pending)];
      active := Some(Txn(active.value.id, active.value.writes + [Write(rid, TOMBSTONE)]));
      return true;
    }

    /** Two records in one call: two log entries, the first may be alone on disk. */
    method Swap(from: nat, to: nat, fromTokens: seq<Token>, toTokens: seq<Token>) returns (ok: bool)
      requires from != DIRTY_RID && to != DIRTY_RID
      modifies this
      ensures ok == old(active).Some?
      ensures State() == Next(Next(old(State()), Event.Put(from, fromTokens)), Event.Put(to, toTokens))
    {
      ok := Put(from, fromTokens);
      if ok {
        ok := Put(to, toTokens);
      }
    }

    method Apply(id: nat, pending: seq<Write>)
      modifies this`store
      ensures store == GridDelete(ApplyAll(pending, GridWrite(old(store), DIRTY_RID, Marker(id))), DIRTY_RID)
    {
      store := GridWrite(store, DIRTY_RID, Marker(id));
      ghost var marked := store;
      var k := 0;
      assert pending[..0] == [];
      while k < |pending|
        invariant k <= |pending|
        invariant store == ApplyAll(pending[..k], marked)
      {
        var x := pending[k];
        assert pending[..k + 1] == pending[..k] + [x];
        ApplySnoc(pending[..k], x, marked);
        if |x.tokens| == 3 && x.tokens[0] == 0 && x.tokens[2] == RECORD {
          store := GridDelete(store, x.rid);
        } else {
          store := GridWrite(store, x.rid, x.tokens);
        }
        k := k + 1;
      }
      assert pending[..|pending|] == pending;
      store := GridDelete(store, DIRTY_RID);
    }

    method Commit() returns (ok: bool)
      modifies this
      ensures ok == old(active).Some?
      ensures State() == if ok then Settle(Next(old(State()), Event.Commit)) else old(State())
    {
      if active.None? {
        return false;
      }
      var t := active.value;
      log := log + [Entry(t.id, 0, CommitTokens(t.id), Committed)];
      history := history + [t];
      Apply(t.id, t.writes);
      active := None;
      SettleCommit(old(State()));
      return true;
    }

    method Rollback() returns (ok: bool)
      modifies this
      ensures ok == old(active).Some?
      ensures State() == Next(old(State()), Event.Rollback)
    {
      if active.None? {
        return false;
      }
      active := None;
      return true;
    }
  }
}
