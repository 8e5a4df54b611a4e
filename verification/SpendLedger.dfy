/**
 * One wallet run per spend request (electron/spendLedger.ts).
 *
 * The value `Ledger` and the functions on it say what each operation does; the
 * class `SpendLedger` carries the two maps and the run records that the
 * operations update in place, and each method is proved against its function.
 */
module LedgerModel {
  import opened Prelude
  import opened WalletFailure

  const UNCLAIMED_SPEND_TTL_MS := 15 * 60000

  datatype Run = Run(
    requestId: nat,
    orphaned: bool,
    lost: Option<BridgeReply>,
    settled: Option<BridgeReply>,
    waiters: set<nat>,
    idleSince: Option<int>)
  {
    /** A settled or lost run has nobody waiting; an orphaned one knows since when it idles. */
    ghost predicate Sound() {
      && (settled.Some? || lost.Some? ==> waiters == {})
      && (lost.Some? ==> orphaned)
      && (orphaned ==> idleSince.Some?)
    }

    predicate Expired(now: int, ttlMs: int) {
      orphaned && waiters == {} && idleSince.Some? && now - idleSince.value > ttlMs
    }
  }

  datatype Ledger = Ledger(runs: map<string, Run>, keyById: map<nat, string>) {
    /** The two maps are inverse and every run is sound. */
    ghost predicate WF() {
      && (forall k :: k in runs ==> runs[k].requestId in keyById && keyById[runs[k].requestId] == k)
      && (forall id :: id in keyById ==> keyById[id] in runs && runs[keyById[id]].requestId == id)
      && (forall k :: k in runs ==> runs[k].Sound())
    }
  }

  datatype Begun = Dispatch | Join(owner: nat) | Replay(reply: BridgeReply)

  function Fresh(requestId: nat): Run {
    Run(requestId, false, None, None, {}, None)
  }

  function Forget(l: Ledger, key: string): Ledger {
    if key !in l.runs then l
    else Ledger(l.runs - {key}, l.keyById - {l.runs[key].requestId})
  }

  function ExpiredKeys(l: Ledger, now: int, ttlMs: int): set<string> {
    set k | k in l.runs && l.runs[k].Expired(now, ttlMs)
  }

  function IdsOf(l: Ledger, keys: set<string>): set<nat> {
    set k | k in keys && k in l.runs :: l.runs[k].requestId
  }

  function ForgetAll(l: Ledger, keys: set<string>): Ledger {
    Ledger(l.runs - keys, l.keyById - IdsOf(l, keys))
  }

  function Prune(l: Ledger, now: int, ttlMs: int): Ledger {
    ForgetAll(l, ExpiredKeys(l, now, ttlMs))
  }

  /** `begin` after the prune it starts with. */
  function BeginPruned(p: Ledger, key: string, requestId: nat): (Ledger, Begun) {
    if key !in p.runs then
      (Ledger(p.runs[key := Fresh(requestId)], p.keyById[requestId := key]), Dispatch)
    else
      var run := p.runs[key];
      if run.settled.Some? then (Forget(p, key), Replay(run.settled.value))
      else if run.lost.Some? then (p, Replay(run.lost.value))
      else (p.(runs := p.runs[key := run.(waiters := run.waiters + {requestId})]), Join(run.requestId))
  }

  function Begin(l: Ledger, key: string, requestId: nat, now: int, ttlMs: int): (Ledger, Begun) {
    BeginPruned(Prune(l, now, ttlMs), key, requestId)
  }

  function RunSettled(run: Run, reply: BridgeReply, now: int): Run {
    run.(waiters := {}, settled := Some(reply), idleSince := if run.orphaned then Some(now) else run.idleSince)
  }

  /** The new ledger and the waiters that are called with `reply`. */
  function Settle(l: Ledger, requestId: nat, reply: BridgeReply, now: int): (Ledger, set<nat>) {
    if requestId !in l.keyById || l.keyById[requestId] !in l.runs then (l, {})
    else
      var key := l.keyById[requestId];
      var run := l.runs[key];
      if run.waiters != {} && run.orphaned then (Forget(l, key), run.waiters)
      else (l.(runs := l.runs[key := RunSettled(run, reply, now)]), run.waiters)
  }

  function Orphan(l: Ledger, requestId: nat, now: int): Ledger {
    if requestId !in l.keyById || l.keyById[requestId] !in l.runs || l.runs[l.keyById[requestId]].orphaned then l
    else
      var key := l.keyById[requestId];
      l.(runs := l.runs[key := l.runs[key].(orphaned := true, idleSince := Some(now))])
  }

  function Done(l: Ledger, requestId: nat): Ledger {
    if requestId in l.keyById then Forget(l, l.keyById[requestId]) else l
  }

  function RunLost(run: Run, reply: BridgeReply, now: int): Run {
    if run.settled.Some? then run
    else run.(waiters := {}, lost := Some(reply), orphaned := true, idleSince := Some(now))
  }

  /** Waiters of the runs among `keys` that have no result yet. */
  function OpenWaitersOf(l: Ledger, keys: set<string>): set<nat> {
    set k, w | k in keys && k in l.runs && l.runs[k].settled.None? && w in l.runs[k].waiters :: w
  }

  function OpenWaiters(l: Ledger): set<nat> {
    OpenWaitersOf(l, l.runs.Keys)
  }

  lemma {:induction false} OpenWaitersStep(l: Ledger, keys: set<string>, key: string)
    requires key in l.runs
    ensures OpenWaitersOf(l, keys + {key})
         == OpenWaitersOf(l, keys) + (if l.runs[key].settled.Some? then {} else l.runs[key].waiters)
  {
  }

  function LoseAll(l: Ledger, reply: BridgeReply, now: int): Ledger {
    l.(runs := map k | k in l.runs :: RunLost(l.runs[k], reply, now))
  }

  /** The `leave` a joiner holds: it stops waiting on the run of request `owner`. */
  function Leave(l: Ledger, owner: nat, waiter: nat): Ledger {
    if owner !in l.keyById || l.keyById[owner] !in l.runs then l
    else
      var key := l.keyById[owner];
      l.(runs := l.runs[key := l.runs[key].(waiters := l.runs[key].waiters - {waiter})])
  }

  // ----- what every operation keeps -----

  lemma {:induction false} ForgetKeepsWF(l: Ledger, key: string)
    requires l.WF()
    ensures Forget(l, key).WF()
  {
  }

  lemma {:induction false} PruneKeepsWF(l: Ledger, now: int, ttlMs: int)
    requires l.WF()
    ensures Prune(l, now, ttlMs).WF()
    ensures forall id :: id in Prune(l, now, ttlMs).keyById <==>
                           id in l.keyById && !l.runs[l.keyById[id]].Expired(now, ttlMs)
  {
    var dead := ExpiredKeys(l, now, ttlMs);
    forall id | id in l.keyById
      ensures id in IdsOf(l, dead) <==> l.keyById[id] in dead
    {
      if l.keyById[id] in dead {
        assert l.runs[l.keyById[id]].requestId == id;
      }
    }
  }

  lemma {:induction false} BeginKeepsWF(l: Ledger, key: string, requestId: nat, now: int, ttlMs: int)
    requires l.WF() && requestId !in l.keyById
    ensures Begin(l, key, requestId, now, ttlMs).0.WF()
  {
    PruneKeepsWF(l, now, ttlMs);
    var p := Prune(l, now, ttlMs);
    if Holder(p, key).Some? { BeginHeldAt(p, key, requestId); } else { BeginNewAt(p, key, requestId); }
  }

  lemma {:induction false} SettleKeepsWF(l: Ledger, requestId: nat, reply: BridgeReply, now: int)
    requires l.WF()
    ensures Settle(l, requestId, reply, now).0.WF()
  {
  }

  lemma {:induction false} OrphanKeepsWF(l: Ledger, requestId: nat, now: int)
    requires l.WF()
    ensures Orphan(l, requestId, now).WF()
  {
  }

  lemma {:induction false} DoneKeepsWF(l: Ledger, requestId: nat)
    requires l.WF()
    ensures Done(l, requestId).WF()
    ensures Done(l, requestId).keyById == l.keyById - {requestId}
  {
  }

  lemma {:induction false} LoseAllKeepsWF(l: Ledger, reply: BridgeReply, now: int)
    requires l.WF()
    ensures LoseAll(l, reply, now).WF()
  {
  }

  lemma {:induction false} LeaveKeepsWF(l: Ledger, owner: nat, waiter: nat)
    requires l.WF()
    ensures Leave(l, owner, waiter).WF()
  {
  }

  // ----- the ledger seen from a request id -----

  /** The key and run that request `id` started and the ledger still holds. */
  function Entry(l: Ledger, id: nat): Option<(string, Run)> {
    if id in l.keyById && l.keyById[id] in l.runs then Some((l.keyById[id], l.runs[l.keyById[id]])) else None
  }

  /** The request whose run is held under `key`. */
  function Holder(l: Ledger, key: string): Option<nat> {
    if key in l.runs then Some(l.runs[key].requestId) else None
  }

  /** `m` holds what `l` holds, except perhaps what `id` started. */
  ghost predicate SameBut(l: Ledger, m: Ledger, id: nat) {
    && m.WF() && m.keyById.Keys <= l.keyById.Keys
    && (forall j {:trigger Entry(m, j)} :: j != id ==> Entry(m, j) == Entry(l, j))
    && (forall k {:trigger Holder(m, k)} :: Holder(m, k).Some? ==> Holder(m, k) == Holder(l, k))
  }

  lemma {:induction false} EntryKey(l: Ledger, id: nat)
    requires l.WF()
    ensures id in l.keyById <==> Entry(l, id).Some?
    ensures Entry(l, id).Some? ==> Entry(l, id).value.1.requestId == id && Entry(l, id).value.1.Sound()
  {
  }

  lemma {:induction false} SettleAt(l: Ledger, id: nat, reply: BridgeReply, now: int)
    requires l.WF()
    ensures var (m, called) := Settle(l, id, reply, now);
            && SameBut(l, m, id)
            && match Entry(l, id)
               case None => Entry(m, id) == None && called == {}
               case Some((key, run)) =>
                 && called == run.waiters
                 && Entry(m, id) == if run.waiters != {} && run.orphaned then None
                                    else Some((key, RunSettled(run, reply, now)))
  {
    SettleKeepsWF(l, id, reply, now);
  }

  lemma {:induction false} OrphanAt(l: Ledger, id: nat, now: int)
    requires l.WF()
    ensures var m := Orphan(l, id, now);
            && SameBut(l, m, id)
            && match Entry(l, id)
               case None => m == l
               case Some((key, run)) =>
                 Entry(m, id) == Some((key, if run.orphaned then run else run.(orphaned := true, idleSince := Some(now))))
  {
    OrphanKeepsWF(l, id, now);
  }

  lemma {:induction false} DoneAt(l: Ledger, id: nat)
    requires l.WF()
    ensures SameBut(l, Done(l, id), id) && Entry(Done(l, id), id) == None
  {
    DoneKeepsWF(l, id);
  }

  lemma {:induction false} LeaveAt(l: Ledger, owner: nat, waiter: nat)
    requires l.WF()
    ensures var m := Leave(l, owner, waiter);
            && SameBut(l, m, owner)
            && match Entry(l, owner)
               case None => m == l
               case Some((key, run)) => Entry(m, owner) == Some((key, run.(waiters := run.waiters - {waiter})))
  {
    LeaveKeepsWF(l, owner, waiter);
  }

  lemma {:induction false} LoseAllAt(l: Ledger, reply: BridgeReply, now: int)
    requires l.WF()
    ensures var m := LoseAll(l, reply, now);
            && m.WF() && m.keyById == l.keyById
            && (forall k {:trigger Holder(m, k)} :: Holder(m, k) == Holder(l, k))
            && (forall j {:trigger Entry(m, j)} ::
                  match Entry(l, j)
                  case None => Entry(m, j) == None
                  case Some((key, run)) => Entry(m, j) == Some((key, RunLost(run, reply, now))))
  {
    LoseAllKeepsWF(l, reply, now);
  }

  /** Exactly the waiters of runs without a result are open. */
  lemma {:induction false} OpenWaitersAt(l: Ledger, w: nat)
    requires l.WF()
    ensures w in OpenWaiters(l) <==>
              exists j {:trigger Entry(l, j)} ::
                Entry(l, j).Some? && Entry(l, j).value.1.settled.None? && w in Entry(l, j).value.1.waiters
  {
    if w in OpenWaiters(l) {
      var k :| k in l.runs && l.runs[k].settled.None? && w in l.runs[k].waiters;
      assert Entry(l, l.runs[k].requestId) == Some((k, l.runs[k]));
    }
  }

  lemma {:induction false} PruneAt(l: Ledger, now: int, ttlMs: int)
    requires l.WF()
    ensures var m := Prune(l, now, ttlMs);
            && m.WF() && m.keyById.Keys <= l.keyById.Keys
            && (forall k {:trigger Holder(m, k)} :: Holder(m, k).Some? ==> Holder(m, k) == Holder(l, k))
            && (forall j {:trigger Entry(m, j)} ::
                  Entry(m, j) == if Entry(l, j).Some? && Entry(l, j).value.1.Expired(now, ttlMs) then None else Entry(l, j))
  {
    PruneKeepsWF(l, now, ttlMs);
  }

  lemma {:induction false} BeginNewAt(p: Ledger, key: string, id: nat)
    requires p.WF() && id !in p.keyById && Holder(p, key) == None
    ensures var (m, begun) := BeginPruned(p, key, id);
            && begun == Dispatch && m.WF() && m.keyById.Keys == p.keyById.Keys + {id}
            && (forall j {:trigger Entry(m, j)} ::
                  Entry(m, j) == if j == id then Some((key, Fresh(id))) else Entry(p, j))
            && (forall k {:trigger Holder(m, k)} :: Holder(m, k) == if k == key then Some(id) else Holder(p, k))
  {
  }

  lemma {:induction false} BeginHeldAt(p: Ledger, key: string, id: nat)
    requires p.WF() && Holder(p, key).Some?
    ensures var (m, begun) := BeginPruned(p, key, id);
            var owner := Holder(p, key).value;
            && SameBut(p, m, owner) && Entry(p, owner) == Some((key, p.runs[key]))
            && var run := p.runs[key];
               if run.settled.Some? then begun == Replay(run.settled.value) && Entry(m, owner) == None
               else if run.lost.Some? then begun == Replay(run.lost.value) && m == p
               else begun == Join(owner) && Entry(m, owner) == Some((key, run.(waiters := run.waiters + {id})))
  {
    var run := p.runs[key];
    if run.settled.Some? {
      ForgetKeepsWF(p, key);
    } else if run.lost.None? {
      AddWaiterKeepsWF(p, key, id);
    }
  }

  lemma {:induction false} AddWaiterKeepsWF(p: Ledger, key: string, id: nat)
    requires p.WF() && key in p.runs && p.runs[key].settled.None? && p.runs[key].lost.None?
    ensures p.(runs := p.runs[key := p.runs[key].(waiters := p.runs[key].waiters + {id})]).WF()
  {
  }

  /** A request id the ledger no longer holds changes nothing, so it cannot touch a later run of the same key. */
  lemma {:induction false} ForgottenIdTouchesNothing(l: Ledger, requestId: nat, waiter: nat, reply: BridgeReply, now: int)
    requires requestId !in l.keyById
    ensures Settle(l, requestId, reply, now) == (l, {})
    ensures Orphan(l, requestId, now) == l && Done(l, requestId) == l && Leave(l, requestId, waiter) == l
  {
  }

  /** A settled result is handed out once: the next identical request starts a run of its own. */
  lemma {:induction false} SettledReplayedOnce(l: Ledger, key: string, id1: nat, id2: nat, t1: int, t2: int, ttlMs: int)
    requires l.WF() && id1 !in l.keyById && id2 !in l.keyById && key in l.runs && l.runs[key].settled.Some?
    requires !l.runs[key].Expired(t1, ttlMs)
    ensures Begin(l, key, id1, t1, ttlMs).1 == Replay(l.runs[key].settled.value)
    ensures Begin(Begin(l, key, id1, t1, ttlMs).0, key, id2, t2, ttlMs).1 == Dispatch
  {
  }

  /**
   * A second run of a key starts exactly when the first may be given up: no run
   * is held, or the held one is orphaned, has no waiter and idled past the limit.
   */
  lemma {:induction false} DispatchExactlyWhen(l: Ledger, key: string, requestId: nat, now: int, ttlMs: int)
    ensures Begin(l, key, requestId, now, ttlMs).1 == Dispatch <==>
              key !in l.runs || l.runs[key].Expired(now, ttlMs)
  {
  }
}

/** The ledger object, each method proved against its function in `LedgerModel`. */
module SpendLedgers {
  import opened Prelude
  import opened WalletFailure
  import opened LedgerModel

  /** A run record, updated in place. */
  class RunRecord {
    const requestId: nat
    var orphaned: bool
    var lost: Option<BridgeReply>
    var settled: Option<BridgeReply>
    var waiters: set<nat>
    var idleSince: Option<int>

    constructor (requestId: nat)
      ensures View() == Fresh(requestId)
    {
      this.requestId := requestId;
      orphaned := false;
      lost := None;
      settled := None;
      waiters := {};
      idleSince := None;
    }

    function View(): Run
      reads this
    {
      Run(requestId, orphaned, lost, settled, waiters, idleSince)
    }
  }

  class SpendLedger {
    var runs: map<string, RunRecord>
    var keyById: map<nat, string>
    const ttlMs: int

    function View(): Ledger
      reads this, runs.Values
    {
      Ledger(map k | k in runs :: runs[k].View(), keyById)
    }

    /** Distinct keys hold distinct records. That the value is well formed is kept by the lemmas on `Ledger`. */
    ghost predicate Valid()
      reads this
    {
      forall j, k :: j in runs && k in runs && j != k ==> runs[j] != runs[k]
    }

    constructor (ttlMs: int := UNCLAIMED_SPEND_TTL_MS)
      ensures Valid() && fresh(runs.Values) && View() == Ledger(map[], map[]) && this.ttlMs == ttlMs
    {
      runs := map[];
      keyById := map[];
      this.ttlMs := ttlMs;
    }

    method ForgetKey(key: string)
      modifies this
      ensures runs == old(runs) - {key}
      ensures keyById == if key in old(runs) then old(keyById) - {old(runs)[key].requestId} else old(keyById)
    {
      if key !in runs { return; }
      var run := runs[key];
      runs := runs - {key};
      keyById := keyById - {run.requestId};
    }

    method PruneRuns(now: int)
      requires Valid()
      modifies this
      ensures Valid() && View() == Prune(old(View()), now, ttlMs)
      ensures runs.Values <= old(runs.Values)
    {
      ghost var before, all := View(), runs;
      var todo := runs.Keys;
      ghost var gone: set<string> := {};
      while todo != {}
        invariant todo <= all.Keys
        invariant gone == ExpiredKeys(before, now, ttlMs) - todo
        invariant runs == all - gone
        invariant keyById == before.keyById - IdsOf(before, gone)
        decreases todo
      {
        var key :| key in todo;
        todo := todo - {key};
        var run := runs[key];
        assert run.View() == before.runs[key];
        if run.orphaned && run.waiters == {} && run.idleSince.Some? && now - run.idleSince.value > ttlMs {
          ForgetKey(key);
          assert IdsOf(before, gone + {key}) == IdsOf(before, gone) + {run.requestId};
          gone := gone + {key};
        }
      }
      assert gone == ExpiredKeys(before, now, ttlMs);
      assert View().runs == before.runs - gone;
    }

    method AddRun(key: string, requestId: nat)
      requires Valid() && key !in runs
      modifies this
      ensures Valid() && fresh(runs.Values - old(runs.Values))
      ensures View() == Ledger(old(View()).runs[key := Fresh(requestId)], old(keyById)[requestId := key])
    {
      ghost var before := View();
      var run := new RunRecord(requestId);
      runs := runs[key := run];
      keyById := keyById[requestId := key];
      assert View().runs == before.runs[key := Fresh(requestId)];
    }

    method Begin(key: string, requestId: nat, now: int) returns (begun: Begun)
      requires Valid()
      modifies this, runs.Values
      ensures Valid() && fresh(runs.Values - old(runs.Values))
      ensures (View(), begun) == LedgerModel.Begin(old(View()), key, requestId, now, ttlMs)
    {
      PruneRuns(now);
      ghost var pruned := View();
      if key !in runs {
        AddRun(key, requestId);
        return Dispatch;
      }
      var run := runs[key];
      assert run.View() == pruned.runs[key];
      if run.settled.Some? {
        ForgetKey(key);
        assert View().runs == pruned.runs - {key};
        return Replay(run.settled.value);
      }
      if run.lost.Some? { return Replay(run.lost.value); }
      AddWaiter(key, requestId);
      return Join(run.requestId);
    }

    method AddWaiter(key: string, waiter: nat)
      requires Valid() && key in runs
      modifies runs[key]
      ensures View() == old(View()).(runs := old(View()).runs[key :=
                          old(View()).runs[key].(waiters := old(View()).runs[key].waiters + {waiter})])
    {
      ghost var before := View();
      var run := runs[key];
      run.waiters := run.waiters + {waiter};
      assert View().runs == before.runs[key := run.View()];
    }

    /** Calls every waiter of a run once and clears them. */
    static method CallWaiters(run: RunRecord) returns (called: seq<nat>)
      modifies run
      ensures multiset(called) == multiset(old(run.waiters))
      ensures run.View() == old(run.View()).(waiters := {})
    {
      called := [];
      var todo := run.waiters;
      while todo != {}
        invariant todo <= run.waiters && multiset(called) == multiset(run.waiters - todo)
        invariant run.View() == old(run.View())
        decreases todo
      {
        var waiter :| waiter in todo;
        assert run.waiters - (todo - {waiter}) == (run.waiters - todo) + {waiter};
        todo := todo - {waiter};
        called := called + [waiter];
      }
      assert run.waiters - todo == run.waiters;
      run.waiters := {};
    }

    /** Returns the waiters it called, each once. */
    method Settle(requestId: nat, reply: BridgeReply, now: int) returns (called: seq<nat>)
      requires Valid()
      modifies this, runs.Values
      ensures Valid() && runs.Values <= old(runs.Values)
      ensures View() == LedgerModel.Settle(old(View()), requestId, reply, now).0
      ensures multiset(called) == multiset(LedgerModel.Settle(old(View()), requestId, reply, now).1)
    {
      ghost var before := View();
      ghost var spec := LedgerModel.Settle(before, requestId, reply, now);
      called := [];
      if requestId !in keyById || keyById[requestId] !in runs { return; }
      var key := keyById[requestId];
      var run := runs[key];
      assert run.View() == before.runs[key];
      var claimed := run.waiters != {};
      called := CallWaiters(run);
      assert spec.1 == before.runs[key].waiters;
      if claimed && run.orphaned {
        ForgetKey(key);
        assert View().runs == before.runs - {key} && spec.0 == Forget(before, key);
        return;
      }
      run.settled := Some(reply);
      if run.orphaned { run.idleSince := Some(now); }
      assert View().runs == before.runs[key := RunSettled(before.runs[key], reply, now)];
    }

    method Orphan(requestId: nat, now: int)
      requires Valid()
      modifies runs.Values
      ensures Valid() && View() == LedgerModel.Orphan(old(View()), requestId, now)
    {
      ghost var before := View();
      if requestId !in keyById || keyById[requestId] !in runs { return; }
      var key := keyById[requestId];
      var run := runs[key];
      if run.orphaned { return; }
      run.orphaned := true;
      run.idleSince := Some(now);
      assert View().runs == before.runs[key := run.View()];
    }

    method Done(requestId: nat)
      requires Valid()
      modifies this
      ensures Valid() && View() == LedgerModel.Done(old(View()), requestId)
      ensures runs.Values <= old(runs.Values)
    {
      ghost var before := View();
      if requestId in keyById {
        ForgetKey(keyById[requestId]);
        assert View().runs == before.runs - {before.keyById[requestId]};
      }
    }

    method Leave(owner: nat, waiter: nat)
      requires Valid()
      modifies runs.Values
      ensures Valid() && View() == LedgerModel.Leave(old(View()), owner, waiter)
    {
      ghost var before := View();
      if owner !in keyById || keyById[owner] !in runs { return; }
      var key := keyById[owner];
      var run := runs[key];
      run.waiters := run.waiters - {waiter};
      assert View().runs == before.runs[key := run.View()];
    }

    static method LoseRun(run: RunRecord, reply: BridgeReply, now: int) returns (called: set<nat>)
      modifies run
      ensures run.View() == RunLost(old(run.View()), reply, now)
      ensures called == if old(run.settled).Some? then {} else old(run.waiters)
    {
      if run.settled.Some? { return {}; }
      called := run.waiters;
      run.waiters := {};
      run.lost := Some(reply);
      run.orphaned := true;
      run.idleSince := Some(now);
    }

    /** Returns the waiters it called; every run without a result ends up lost. */
    method LoseAll(reply: BridgeReply, now: int) returns (called: set<nat>)
      requires Valid()
      modifies runs.Values
      ensures Valid() && View() == LedgerModel.LoseAll(old(View()), reply, now)
      ensures called == OpenWaiters(old(View()))
    {
      ghost var before := View();
      called := {};
      var todo := runs.Keys;
      while todo != {}
        invariant todo <= runs.Keys
        invariant forall k :: k in runs ==> runs[k].View() == if k in todo then before.runs[k] else RunLost(before.runs[k], reply, now)
        invariant called == OpenWaitersOf(before, before.runs.Keys - todo)
        decreases todo
      {
        var key :| key in todo;
        OpenWaitersStep(before, before.runs.Keys - todo, key);
        assert before.runs.Keys - (todo - {key}) == before.runs.Keys - todo + {key};
        todo := todo - {key};
        var woken := LoseRun(runs[key], reply, now);
        called := called + woken;
      }
      assert before.runs.Keys - todo == before.runs.Keys;
      assert View().runs == LedgerModel.LoseAll(before, reply, now).runs;
    }
  }
}
