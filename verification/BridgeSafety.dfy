/**
 * What holds in every state the bridge can reach, whatever the interleaving:
 * no spend is in the wallet twice unless its first run was given up, and no
 * answer calls a spend safe to repeat when the wallet may have it.
 */
module BridgeSafety {
  import opened Prelude
  import opened WalletFailure
  import opened LedgerModel
  import opened BridgeModel

  /** The stage of a request agrees with where it has been. */
  ghost predicate StageOk(s: Bridge, id: nat, r: Request) {
    && (r.stage.Acquiring? ==> !r.dispatched && !r.repeated)
    && (r.stage.InWallet? ==> r.dispatched && id in s.pending && id in s.wallet)
    && (r.stage.Replied? ==> r.dispatched && id !in s.wallet && r.stage.reply.FromWallet?)
    && (r.stage.Waiting? || r.stage.Woken? ==> !r.dispatched && r.repeated && r.Tracked())
    && (r.dispatched ==> !r.repeated)
    && (id in s.wallet ==> r.dispatched)
    && (id in s.pending ==> r.stage.InWallet? || r.stage.Finished?)
  }

  /** The run a request started: held and open on the way to the wallet and in it, settled once answered. */
  ghost predicate RunOk(s: Bridge, id: nat, r: Request, entry: Option<(string, Run)>) {
    && (r.Tracked() && (r.stage.Acquiring? || id in s.wallet) && id !in s.gaveUp ==>
          entry.Some? && entry.value.1.settled.None?)
    && (r.stage.Replied? && entry.Some? ==> entry.value.1.settled.Some?)
    && (entry.Some? ==>
          && r.Tracked() && r.Key() == entry.value.0 && id !in s.gaveUp && id !in s.replayed
          && (entry.value.1.settled.Some? ==> entry.value.1.settled.value.FromWallet?)
          && (entry.value.1.lost.Some? ==>
                entry.value.1.lost.value.FromBridge? && ChecksFirst(entry.value.1.lost.value))
          && forall w :: w in entry.value.1.waiters ==> w in s.requests && s.requests[w].stage == Waiting(id))
  }

  /** A waiting request is a waiter of its run, or its run was forgotten before it reached the wallet. */
  ghost predicate WaitsOn(s: Bridge, waiter: nat, owner: nat) {
    && owner in s.requests
    && match Entry(s.ledger, owner)
       case Some((_, run)) => waiter in run.waiters
       case None => !s.requests[owner].dispatched && s.requests[owner].stage.Finished?
  }

  /** What is known of the answer a request has or is about to get. */
  ghost predicate AnswerOk(r: Request) {
    match r.stage
    case Woken(reply) => ChecksFirst(reply)
    case Failing(message) => r.spend ==>
        Includes(message, PENDING) || Includes(message, CLIENT_DISCONNECTED)
    case Finished(Some(reply)) => r.spend && (r.dispatched || r.repeated) ==> ChecksFirst(reply)
    case _ => true
  }

  ghost predicate RequestOk(s: Bridge, id: nat) {
    id in s.requests ==>
      var r := s.requests[id];
      && id < s.nextId
      && StageOk(s, id, r)
      && RunOk(s, id, r, Entry(s.ledger, id))
      && (r.stage.Waiting? ==> WaitsOn(s, id, r.stage.owner))
      && AnswerOk(r)
      // the run held under a key is the last one begun for it
      && (r.Tracked() && r.Started() && Holder(s.ledger, r.Key()).Some? ==> id <= Holder(s.ledger, r.Key()).value)
  }

  ghost predicate Inv(s: Bridge) {
    && s.ledger.WF()
    && s.ledger.keyById.Keys <= s.requests.Keys
    && s.pending <= s.requests.Keys && s.wallet <= s.requests.Keys
    && s.gaveUp.Keys <= s.requests.Keys && s.replayed <= s.requests.Keys
    && (forall id :: id in s.gaveUp ==> s.gaveUp[id] > UNCLAIMED_SPEND_TTL_MS)
    && (forall id: nat {:trigger RequestOk(s, id)} :: RequestOk(s, id))
  }

  /** Between `s` and `t` the ledger changed for request `a` only, and the rest for the requests in `c` only. */
  ghost predicate Steady(s: Bridge, t: Bridge, a: nat, c: set<nat>) {
    && t.nextId == s.nextId && t.gaveUp == s.gaveUp && t.replayed == s.replayed
    && SameBut(s.ledger, t.ledger, a)
    && t.requests.Keys == s.requests.Keys
    && (forall k :: k in s.requests && k !in c ==> t.requests[k] == s.requests[k])
    && (forall k :: k !in c ==> (k in t.pending <==> k in s.pending) && (k in t.wallet <==> k in s.wallet))
  }

  /** A request that no change is about stays as good as it was. */
  lemma {:induction false} OthersKeep(s: Bridge, t: Bridge, a: nat, c: set<nat>, j: nat)
    requires Steady(s, t, a, c) && j != a && j !in c && RequestOk(s, j)
    requires forall w :: w in c && w in s.requests ==> s.requests[w].stage != Waiting(j)
    requires j in s.requests && s.requests[j].stage.Waiting? ==>
               var owner := s.requests[j].stage.owner;
               (owner != a && owner !in c) || WaitsOn(t, j, owner)
    ensures RequestOk(t, j)
  {
  }

  lemma {:induction false} AcquireReadyKeeps(s: Bridge, id: nat)
    requires Inv(s) && Enabled(s, AcquireReadyStep(id))
    ensures Inv(AcquireReady(s, id))
  {
    var t := AcquireReady(s, id);
    forall j: nat ensures RequestOk(t, j) {
      assert RequestOk(s, j) && RequestOk(s, id);
    }
  }

  lemma {:induction false} AcquireFailsKeeps(s: Bridge, id: nat, message: string, registered: bool)
    requires Inv(s) && Enabled(s, AcquireFailsStep(id, message, registered))
    ensures Inv(AcquireFails(s, id, message, registered))
  {
    DoneAt(s.ledger, id);
    var t := AcquireFails(s, id, message, registered);
    forall j: nat ensures RequestOk(t, j) {
      assert RequestOk(s, j) && RequestOk(s, id);
    }
  }

  lemma {:induction false} DeliverOwn(s: Bridge, id: nat, status: int, body: string)
    requires s.ledger.WF() && RequestOk(s, id) && Enabled(s, DeliverStep(id, status, body))
    ensures RequestOk(Deliver(s, id, status, body), id)
  {
    SettleAt(s.ledger, id, FromWallet(status, body), s.now);
  }

  lemma {:induction false} DeliverCalled(s: Bridge, id: nat, status: int, body: string, j: nat)
    requires s.ledger.WF() && RequestOk(s, j) && RequestOk(s, id) && Enabled(s, DeliverStep(id, status, body))
    requires j != id && j in Settle(s.ledger, id, FromWallet(status, body), s.now).1
    ensures RequestOk(Deliver(s, id, status, body), j)
  {
    SettleAt(s.ledger, id, FromWallet(status, body), s.now);
    assert s.requests[j].stage == Waiting(id);
    var t := Deliver(s, id, status, body);
    assert t.requests[j] == s.requests[j].(stage := Woken(FromWallet(status, body)));
    assert Entry(s.ledger, j) == Entry(t.ledger, j);
  }

  lemma {:induction false} DeliverKeeps(s: Bridge, id: nat, status: int, body: string)
    requires Inv(s) && Enabled(s, DeliverStep(id, status, body))
    ensures Inv(Deliver(s, id, status, body))
  {
    var reply := FromWallet(status, body);
    SettleAt(s.ledger, id, reply, s.now);
    var t := Deliver(s, id, status, body);
    var called := Settle(s.ledger, id, reply, s.now).1;
    assert RequestOk(s, id);
    forall j: nat ensures RequestOk(t, j) {
      assert RequestOk(s, j);
      if j == id {
        DeliverOwn(s, id, status, body);
      } else if j in called {
        DeliverCalled(s, id, status, body, j);
      } else {
        OthersKeep(s, t, id, called + {id}, j);
      }
    }
  }

  lemma {:induction false} ResumeKeeps(s: Bridge, id: nat)
    requires Inv(s) && Enabled(s, ResumeStep(id))
    ensures Inv(Resume(s, id))
  {
    DoneAt(s.ledger, id);
    OrphanAt(s.ledger, id, s.now);
    EntryKey(s.ledger, id);
    var t := Resume(s, id);
    assert RequestOk(s, id);
    forall j: nat ensures RequestOk(t, j) {
      assert RequestOk(s, j);
      if j != id { OthersKeep(s, t, id, {id}, j); }
    }
  }

  lemma {:induction false} ResumeJoinedKeeps(s: Bridge, id: nat)
    requires Inv(s) && Enabled(s, ResumeJoinedStep(id))
    ensures Inv(ResumeJoined(s, id))
  {
    var t := ResumeJoined(s, id);
    forall j: nat ensures RequestOk(t, j) {
      assert RequestOk(s, j) && RequestOk(s, id);
    }
  }

  /** A dispatched request is given up on: its promise is rejected and its run left to itself. */
  lemma {:induction false} RejectedOwn(s: Bridge, t: Bridge, id: nat, r: Request)
    requires s.ledger.WF() && RequestOk(s, id) && id in s.requests && s.requests[id].stage.InWallet?
    requires t.ledger == Orphan(s.ledger, id, s.now) && t.requests == s.requests[id := r]
    requires t == s.(ledger := t.ledger, requests := t.requests, pending := s.pending - {id})
    requires r == s.requests[id].(stage := r.stage, connected := r.connected) && r.stage.Failing? && AnswerOk(r)
    ensures RequestOk(t, id)
  {
    OrphanAt(s.ledger, id, s.now);
  }

  /** Only the deadline timer of a request that was never handed over is left; it changes nothing else. */
  lemma {:induction false} LeftoverOwn(s: Bridge, t: Bridge, id: nat)
    requires s.ledger.WF() && RequestOk(s, id) && id in s.requests && !s.requests[id].stage.InWallet?
    requires t == s.(ledger := Orphan(s.ledger, id, s.now), pending := s.pending - {id})
    ensures RequestOk(t, id)
  {
    OrphanAt(s.ledger, id, s.now);
  }

  lemma {:induction false} DeadlineOwn(s: Bridge, id: nat)
    requires s.ledger.WF() && RequestOk(s, id) && Enabled(s, DeadlineStep(id))
    ensures RequestOk(Deadline(s, id), id)
  {
    var r := s.requests[id];
    if !s.promptOpen {
      if r.stage.InWallet? {
        if r.spend { SpendDeadlineChecksFirst(r.httpMethod, r.path); }
        RejectedOwn(s, Deadline(s, id), id, r.(stage := Failing(DeadlineMessage(r.httpMethod, r.path, r.spend))));
      } else {
        LeftoverOwn(s, Deadline(s, id), id);
      }
    }
  }

  lemma {:induction false} DeadlineSteady(s: Bridge, id: nat)
    requires Inv(s) && Enabled(s, DeadlineStep(id)) && !s.promptOpen
    ensures var t := Deadline(s, id);
            Steady(s, t, id, {id}) && t.wallet == s.wallet && t.pending <= s.pending
  {
    OrphanAt(s.ledger, id, s.now);
  }

  /** Enough that the changed request is fine: the rest follows from what did not change. */
  lemma {:induction false} SteadyKeeps(s: Bridge, t: Bridge, id: nat)
    requires Inv(s) && id in s.requests && !s.requests[id].stage.Waiting?
    requires Steady(s, t, id, {id}) && t.wallet <= s.wallet && t.pending <= s.pending && RequestOk(t, id)
    requires forall j :: j in s.requests && s.requests[j].stage == Waiting(id) ==> WaitsOn(t, j, id)
    ensures Inv(t)
  {
    forall j: nat ensures RequestOk(t, j) {
      assert RequestOk(s, j);
      if j != id { OthersKeep(s, t, id, {id}, j); }
    }
  }

  lemma {:induction false} DeadlineKeeps(s: Bridge, id: nat)
    requires Inv(s) && Enabled(s, DeadlineStep(id))
    ensures Inv(Deadline(s, id))
  {
    assert RequestOk(s, id);
    if !s.promptOpen {
      DeadlineSteady(s, id);
      DeadlineOwn(s, id);
      forall j | j in s.requests && s.requests[j].stage == Waiting(id) ensures WaitsOn(Deadline(s, id), j, id) {
        assert RequestOk(s, j);
        OrphanAt(s.ledger, id, s.now);
      }
      SteadyKeeps(s, Deadline(s, id), id);
    }
  }

  /** A joiner gives up: it leaves the waiters of the run it joined. */
  lemma {:induction false} LeftKeeps(s: Bridge, t: Bridge, id: nat, owner: nat)
    requires Inv(s) && id in s.requests && s.requests[id].stage == Waiting(owner)
    requires t.ledger == Leave(s.ledger, owner, id)
    requires t == s.(requests := t.requests, ledger := t.ledger) && t.requests.Keys == s.requests.Keys
    requires forall k :: k in s.requests && k != id ==> t.requests[k] == s.requests[k]
    requires t.requests[id] == s.requests[id].(stage := t.requests[id].stage, connected := t.requests[id].connected)
    requires t.requests[id].stage.Failing? && AnswerOk(t.requests[id])
    ensures Inv(t)
  {
    LeaveAt(s.ledger, owner, id);
    assert RequestOk(s, id) && RequestOk(s, owner);
    forall j: nat ensures RequestOk(t, j) {
      assert RequestOk(s, j);
      if j != id && j != owner { OthersKeep(s, t, owner, {id}, j); }
    }
  }

  lemma {:induction false} JoinDeadlineKeeps(s: Bridge, id: nat)
    requires Inv(s) && Enabled(s, JoinDeadlineStep(id))
    ensures Inv(JoinDeadline(s, id))
  {
    var owner := s.requests[id].stage.owner;
    LeaveAt(s.ledger, owner, id);
    assert RequestOk(s, id) && RequestOk(s, owner);
    SpendDeadlineChecksFirst(s.requests[id].httpMethod, s.requests[id].path);
    var t := JoinDeadline(s, id);
    LeftKeeps(s, t, id, owner);
  }

  lemma {:induction false} HangUpOwn(s: Bridge, id: nat)
    requires s.ledger.WF() && RequestOk(s, id) && Enabled(s, HangUpStep(id)) && !s.requests[id].stage.Waiting?
    ensures RequestOk(HangUp(s, id), id)
  {
    IncludesPrefix(CLIENT_DISCONNECTED, HANG_UP_DETAIL);
    if s.requests[id].stage.InWallet? { RejectedOwn(s, HangUp(s, id), id, HangUp(s, id).requests[id]); }
  }

  lemma {:induction false} HangUpKeeps(s: Bridge, id: nat)
    requires Inv(s) && Enabled(s, HangUpStep(id))
    ensures Inv(HangUp(s, id))
  {
    var t := HangUp(s, id);
    assert RequestOk(s, id);
    if s.requests[id].stage.Waiting? {
      IncludesPrefix(CLIENT_DISCONNECTED, HANG_UP_DETAIL);
      LeftKeeps(s, t, id, s.requests[id].stage.owner);
    } else {
      HangUpOwn(s, id);
      HangUpSteady(s, id);
      forall j | j in s.requests && s.requests[j].stage == Waiting(id) ensures WaitsOn(t, j, id) {
        assert RequestOk(s, j);
        OrphanAt(s.ledger, id, s.now);
      }
      SteadyKeeps(s, t, id);
    }
  }

  lemma {:induction false} HangUpSteady(s: Bridge, id: nat)
    requires Inv(s) && Enabled(s, HangUpStep(id)) && !s.requests[id].stage.Waiting?
    ensures var t := HangUp(s, id);
            Steady(s, t, id, {id}) && t.wallet == s.wallet && t.pending <= s.pending
  {
    OrphanAt(s.ledger, id, s.now);
  }

  lemma {:induction false} FailKeeps(s: Bridge, id: nat)
    requires Inv(s) && Enabled(s, FailStep(id))
    ensures Inv(Fail(s, id))
  {
    DoneAt(s.ledger, id);
    var t := Fail(s, id);
    assert RequestOk(s, id);
    forall j: nat ensures RequestOk(t, j) {
      assert RequestOk(s, j);
      if j != id { OthersKeep(s, t, id, {id}, j); }
    }
  }

  lemma {:induction false} LostChecksFirst(reason: string)
    ensures ChecksFirst(LostReply(reason))
  {
    IncludesPrefix(PENDING, LostDetail(reason));
  }

  /** A waiter that loseAll calls. */
  lemma {:induction false} FailAllCalled(s: Bridge, reason: string, j: nat)
    requires Inv(s) && j in OpenWaiters(s.ledger)
    ensures RequestOk(FailAll(s, reason), j)
  {
    var t := FailAll(s, reason);
    LoseAllAt(s.ledger, LostReply(reason), s.now);
    OpenWaitersAt(s.ledger, j);
    var owner :| Entry(s.ledger, owner).Some? && Entry(s.ledger, owner).value.1.settled.None?
                 && j in Entry(s.ledger, owner).value.1.waiters;
    assert RequestOk(s, owner) && RequestOk(s, j);
    LostChecksFirst(reason);
    assert t.requests[j] == s.requests[j].(stage := Woken(LostReply(reason)));
    EntryKey(s.ledger, j);
    assert Entry(t.ledger, j).Some? ==> Entry(s.ledger, j).Some?;
  }

  /** A request that was pending is rejected. */
  lemma {:induction false} FailAllRejected(s: Bridge, reason: string, j: nat)
    requires Inv(s) && j in s.requests && j !in OpenWaiters(s.ledger) && s.requests[j].stage.InWallet?
    ensures RequestOk(FailAll(s, reason), j)
  {
    var t := FailAll(s, reason);
    var r := s.requests[j];
    LoseAllAt(s.ledger, LostReply(reason), s.now);
    assert RequestOk(s, j);
    EntryKey(s.ledger, j);
    LostChecksFirst(reason);
    var r' := r.(stage := Failing(StoppedMessage(r, reason)));
    assert t.requests[j] == r';
    assert AnswerOk(r') by {
      if r.spend { IncludesPrefix(PENDING, StoppedDetail(r, reason)); }
    }
    assert RunOk(t, j, r', Entry(t.ledger, j));
  }

  lemma {:induction false} OpenAreWaiting(s: Bridge, w: nat)
    requires Inv(s) && w in OpenWaiters(s.ledger)
    ensures w in s.requests && s.requests[w].stage.Waiting?
  {
    OpenWaitersAt(s.ledger, w);
    var owner :| Entry(s.ledger, owner).Some? && Entry(s.ledger, owner).value.1.settled.None?
                 && w in Entry(s.ledger, owner).value.1.waiters;
    assert RequestOk(s, owner);
    EntryKey(s.ledger, owner);
  }

  /** Any other request is untouched. */
  lemma {:induction false} FailAllOther(s: Bridge, reason: string, j: nat)
    requires Inv(s) && j in s.requests && j !in OpenWaiters(s.ledger) && !s.requests[j].stage.InWallet?
    ensures RequestOk(FailAll(s, reason), j)
  {
    var t := FailAll(s, reason);
    var r := s.requests[j];
    LoseAllAt(s.ledger, LostReply(reason), s.now);
    OpenWaitersAt(s.ledger, j);
    assert RequestOk(s, j);
    EntryKey(s.ledger, j);
    LostChecksFirst(reason);
    assert t.requests[j] == r;
    if r.stage.Waiting? {
      var owner := r.stage.owner;
      EntryKey(s.ledger, owner);
      assert RequestOk(s, owner);
      if owner in OpenWaiters(s.ledger) { OpenAreWaiting(s, owner); }
    }
    assert RunOk(t, j, r, Entry(t.ledger, j));
  }

  lemma {:induction false} FailAllKeeps(s: Bridge, reason: string)
    requires Inv(s)
    ensures Inv(FailAll(s, reason))
  {
    LoseAllAt(s.ledger, LostReply(reason), s.now);
    forall j: nat ensures RequestOk(FailAll(s, reason), j) {
      assert RequestOk(s, j);
      if j in OpenWaiters(s.ledger) {
        FailAllCalled(s, reason, j);
      } else if j in s.requests {
        if s.requests[j].stage.InWallet? { FailAllRejected(s, reason, j); } else { FailAllOther(s, reason, j); }
      }
    }
  }

  /** The ledger's prune, as the bridge sees it: a run it drops had nobody waiting on it. */
  lemma {:induction false} PruneKeeps(s: Bridge)
    requires Inv(s)
    ensures Inv(Pruned(s))
  {
    var t := Pruned(s);
    PruneAt(s.ledger, s.now, UNCLAIMED_SPEND_TTL_MS);
    forall j: nat ensures RequestOk(t, j) {
      assert RequestOk(s, j);
      EntryKey(s.ledger, j);
      if j in s.requests && s.requests[j].stage.Waiting? {
        assert RequestOk(s, s.requests[j].stage.owner);
      }
    }
  }

  ghost predicate IsNew(r: Request) {
    r == NewRequest(r.origin, r.path, r.body, r.httpMethod)
  }

  /** No run is held for the key: the new request starts one. */
  lemma {:induction false} ArriveStarts(u: Bridge, r: Request, j: nat)
    requires Inv(u) && IsNew(r) && r.Tracked() && Holder(u.ledger, r.Key()) == None
    ensures RequestOk(ArriveSpend(u, r), j)
  {
    var id := u.nextId;
    assert RequestOk(u, id) && RequestOk(u, j);
    EntryKey(u.ledger, id);
    BeginNewAt(u.ledger, r.Key(), id);
    if j != id && j in u.requests && u.requests[j].stage.Waiting? {
      assert RequestOk(u, u.requests[j].stage.owner);
    }
  }

  /** A run is held for the key: the new request joins it or gets its result. */
  lemma {:induction false} ArriveRepeats(u: Bridge, r: Request, j: nat)
    requires Inv(u) && IsNew(r) && r.Tracked() && Holder(u.ledger, r.Key()).Some?
    ensures RequestOk(ArriveSpend(u, r), j)
  {
    var id := u.nextId;
    var t := ArriveSpend(u, r);
    var owner := Holder(u.ledger, r.Key()).value;
    BeginHeldAt(u.ledger, r.Key(), id);
    EntryKey(u.ledger, id);
    EntryKey(u.ledger, owner);
    assert RequestOk(u, id) && RequestOk(u, j) && RequestOk(u, owner);
    if j != id && j in u.requests && u.requests[j].stage.Waiting? && u.requests[j].stage.owner == owner {
      assert j in u.ledger.runs[r.Key()].waiters;
    }
  }

  lemma {:induction false} ArriveKeeps(s: Bridge, origin: string, path: string, body: string, httpMethod: string)
    requires Inv(s)
    ensures Inv(Arrive(s, origin, path, body, httpMethod))
  {
    var r := NewRequest(origin, path, body, httpMethod);
    var t := Arrive(s, origin, path, body, httpMethod);
    assert RequestOk(s, s.nextId);
    if r.Tracked() {
      PruneKeeps(s);
      ArriveSpendKeeps(Pruned(s), r);
    } else {
      EntryKey(s.ledger, s.nextId);
      forall j: nat ensures RequestOk(t, j) {
        assert RequestOk(s, j);
      }
    }
  }

  lemma {:induction false} ArriveSpendKeeps(u: Bridge, r: Request)
    requires Inv(u) && IsNew(r) && r.Tracked()
    ensures Inv(ArriveSpend(u, r))
  {
    var id := u.nextId;
    assert RequestOk(u, id);
    if Holder(u.ledger, r.Key()).None? {
      BeginNewAt(u.ledger, r.Key(), id);
      forall j: nat ensures RequestOk(ArriveSpend(u, r), j) { ArriveStarts(u, r, j); }
    } else {
      BeginHeldAt(u.ledger, r.Key(), id);
      EntryKey(u.ledger, Holder(u.ledger, r.Key()).value);
      forall j: nat ensures RequestOk(ArriveSpend(u, r), j) { ArriveRepeats(u, r, j); }
    }
  }

  // ----- whole runs -----

  lemma {:induction false} NextKeeps(s: Bridge, step: Step)
    requires Inv(s) && Enabled(s, step)
    ensures Inv(Next(s, step))
  {
    match step
    case ArriveStep(origin, path, body, httpMethod) => ArriveKeeps(s, origin, path, body, httpMethod);
    case AcquireReadyStep(id) => AcquireReadyKeeps(s, id);
    case AcquireFailsStep(id, message, registered) => AcquireFailsKeeps(s, id, message, registered);
    case DeliverStep(id, status, body) => DeliverKeeps(s, id, status, body);
    case ResumeStep(id) => ResumeKeeps(s, id);
    case ResumeJoinedStep(id) => ResumeJoinedKeeps(s, id);
    case DeadlineStep(id) => DeadlineKeeps(s, id);
    case JoinDeadlineStep(id) => JoinDeadlineKeeps(s, id);
    case HangUpStep(id) => HangUpKeeps(s, id);
    case FailStep(id) => FailKeeps(s, id);
    case FailAllStep(reason) => FailAllKeeps(s, reason);
    case PromptStep(open) => SameRequestsKeep(s, s.(promptOpen := open));
    case TickStep(later) => SameRequestsKeep(s, s.(now := s.now + later));
  }

  lemma {:induction false} SameRequestsKeep(s: Bridge, t: Bridge)
    requires Inv(s) && t == s.(promptOpen := t.promptOpen, now := t.now)
    ensures Inv(t)
  {
    forall j: nat ensures RequestOk(t, j) {
      assert RequestOk(s, j);
    }
  }

  lemma {:induction false} RunKeeps(s: Bridge, steps: seq<Step>, t: Bridge)
    requires Inv(s) && Reaches(s, steps, t)
    ensures Inv(t)
    decreases |steps|
  {
    if steps != [] {
      NextKeeps(s, steps[0]);
      RunKeeps(Next(s, steps[0]), steps[1..], t);
    }
  }

  /** Every state the bridge can reach from a fresh start keeps the invariant. */
  lemma {:induction false} ReachableOk(now: int, steps: seq<Step>, t: Bridge)
    requires Reaches(Start(now), steps, t)
    ensures Inv(t)
  {
    forall j: nat ensures RequestOk(Start(now), j) {
    }
    RunKeeps(Start(now), steps, t);
  }

  /**
   * At most once: in every run, when two identical spends are in the wallet
   * together, the ledger had given the earlier one up, after it idled without
   * any caller for longer than the limit.
   */
  lemma {:induction false} AtMostOnce(now: int, steps: seq<Step>, t: Bridge, i: nat, j: nat)
    requires Reaches(Start(now), steps, t)
    requires i in t.wallet && j in t.wallet && i < j
    requires i in t.requests && j in t.requests && t.requests[i].Tracked() && t.requests[j].Tracked()
    requires t.requests[i].Key() == t.requests[j].Key()
    ensures i in t.gaveUp && t.gaveUp[i] > UNCLAIMED_SPEND_TTL_MS
  {
    ReachableOk(now, steps, t);
    assert RequestOk(t, i) && RequestOk(t, j);
    EntryKey(t.ledger, i);
  }

  lemma {:induction false} ArriveStartsWhen(s: Bridge, u: Request)
    requires u.Tracked() && u.Key() in s.ledger.runs
    ensures ArriveSpend(Pruned(s), u).requests[s.nextId].stage.Acquiring? <==>
              s.ledger.runs[u.Key()].Expired(s.now, UNCLAIMED_SPEND_TTL_MS)
  {
    assert u.Key() in Pruned(s).ledger.runs <==> !s.ledger.runs[u.Key()].Expired(s.now, UNCLAIMED_SPEND_TTL_MS);
  }

  /**
   * A repeat of a spend that is in the wallet and not given up starts a second
   * run exactly when the held run is orphaned, has no waiter and idled past the limit.
   */
  lemma {:induction false} SecondRunExactlyWhen(now: int, steps: seq<Step>, s: Bridge, i: nat)
    requires Reaches(Start(now), steps, s) && i in s.wallet && i in s.requests && i !in s.gaveUp && s.requests[i].Tracked()
    ensures var r := s.requests[i];
            && r.Key() in s.ledger.runs
            && var t := Arrive(s, r.origin, r.path, r.body, r.httpMethod);
               (t.requests[s.nextId].stage.Acquiring? <==> s.ledger.runs[r.Key()].Expired(s.now, UNCLAIMED_SPEND_TTL_MS))
  {
    ReachableOk(now, steps, s);
    assert RequestOk(s, i);
    EntryKey(s.ledger, i);
    ReachableFlags(Start(now), steps, s);
    var r := s.requests[i];
    var u := NewRequest(r.origin, r.path, r.body, r.httpMethod);
    assert u.Tracked() && u.Key() == r.Key();
    assert Arrive(s, r.origin, r.path, r.body, r.httpMethod) == ArriveSpend(Pruned(s), u);
    ArriveStartsWhen(s, u);
  }

  lemma {:induction false} ReachesStep(s: Bridge, step: Step, rest: seq<Step>, t: Bridge)
    requires Enabled(s, step) && Reaches(Next(s, step), rest, t)
    ensures Reaches(s, [step] + rest, t)
  {
    assert ([step] + rest)[1..] == rest;
  }

  lemma {:induction false} ReachesTrans(s: Bridge, first: seq<Step>, t: Bridge, second: seq<Step>, u: Bridge)
    requires Reaches(s, first, t) && Reaches(t, second, u)
    ensures Reaches(s, first + second, u)
    decreases |first|
  {
    if first == [] {
      assert first + second == second;
    } else {
      ReachesTrans(Next(s, first[0]), first[1..], t, second, u);
      ReachesStep(s, first[0], first[1..] + second, u);
      assert [first[0]] + (first[1..] + second) == first + second;
    }
  }

  lemma {:induction false} ReachesTwo(s: Bridge, one: Step, two: Step)
    requires Enabled(s, one) && Enabled(Next(s, one), two)
    ensures Reaches(s, [one, two], Next(Next(s, one), two))
  {
    var t := Next(s, one);
    assert Reaches(Next(t, two), [], Next(t, two));
    ReachesStep(t, two, [], Next(t, two));
    ReachesStep(s, one, [two], Next(t, two));
  }

  /** One run of a spend is in the wallet, and its caller hung up at time 0. */
  ghost predicate OneOrphan(s: Bridge, key: string) {
    && s.ledger == Ledger(map[key := Run(1, true, None, None, {}, Some(0))], map[1 := key])
    && s.requests.Keys == {1} && s.requests[1].Key() == key && s.wallet == {1} && s.nextId == 2
  }

  lemma {:induction false} FirstRunHandedOver(origin: string, path: string, body: string) returns (t: Bridge)
    requires IsSpendMethodPath(path)
    ensures Reaches(Start(0), [ArriveStep(origin, path, body, "POST"), AcquireReadyStep(1)], t)
    ensures var key := SpendRequestKey(origin, path, body);
            && t.ledger == Ledger(map[key := Fresh(1)], map[1 := key])
            && t.requests.Keys == {1} && t.requests[1].Key() == key && t.wallet == {1} && t.nextId == 2
            && t.requests[1].stage.InWallet? && t.requests[1].connected && t.pending == {1} && t.now == 0
  {
    var arrive := ArriveStep(origin, path, body, "POST");
    var s1 := Next(Start(0), arrive);
    assert Pruned(Start(0)).ledger == Ledger(map[], map[]);
    t := Next(s1, AcquireReadyStep(1));
    ReachesTwo(Start(0), arrive, AcquireReadyStep(1));
  }

  lemma {:induction false} FirstRunOrphaned(s: Bridge, key: string, later: nat)
    requires s.ledger == Ledger(map[key := Fresh(1)], map[1 := key])
    requires s.requests.Keys == {1} && s.requests[1].Key() == key && s.wallet == {1} && s.nextId == 2
    requires s.requests[1].stage.InWallet? && s.requests[1].connected && s.pending == {1} && s.now == 0
    ensures Enabled(s, HangUpStep(1))
    ensures var t := Next(Next(s, HangUpStep(1)), TickStep(later));
            Reaches(s, [HangUpStep(1), TickStep(later)], t) && OneOrphan(t, key) && t.now == later
  {
    assert Orphan(s.ledger, 1, 0).runs == map[key := Run(1, true, None, None, {}, Some(0))];
    ReachesTwo(s, HangUpStep(1), TickStep(later));
  }

  /** Past the limit the same spend comes again and is handed over too. */
  lemma {:induction false} SecondRunStarts(s: Bridge, origin: string, path: string, body: string) returns (t: Bridge)
    requires IsSpendMethodPath(path) && OneOrphan(s, SpendRequestKey(origin, path, body))
    requires s.now > UNCLAIMED_SPEND_TTL_MS
    ensures Reaches(s, [ArriveStep(origin, path, body, "POST"), AcquireReadyStep(2)], t)
    ensures t.wallet == {1, 2} && t.requests.Keys == {1, 2} && t.requests[1].Key() == t.requests[2].Key()
  {
    var arrive := ArriveStep(origin, path, body, "POST");
    var key := SpendRequestKey(origin, path, body);
    assert s.ledger.runs[key].Expired(s.now, UNCLAIMED_SPEND_TTL_MS);
    assert key !in Pruned(s).ledger.runs;
    t := Next(Next(s, arrive), AcquireReadyStep(2));
    ReachesTwo(s, arrive, AcquireReadyStep(2));
  }

  /** The exception is real: for every spend there is a run that ends with two of it in the wallet. */
  lemma {:induction false} SecondRunPossible(origin: string, path: string, body: string) returns (steps: seq<Step>, t: Bridge)
    requires IsSpendMethodPath(path)
    ensures Reaches(Start(0), steps, t) && t.wallet == {1, 2}
    ensures t.requests.Keys == {1, 2} && t.requests[1].Key() == t.requests[2].Key()
  {
    var s2 := FirstRunHandedOver(origin, path, body);
    FirstRunOrphaned(s2, SpendRequestKey(origin, path, body), UNCLAIMED_SPEND_TTL_MS + 1);
    var s4 := Next(Next(s2, HangUpStep(1)), TickStep(UNCLAIMED_SPEND_TTL_MS + 1));
    t := SecondRunStarts(s4, origin, path, body);
    var first := [ArriveStep(origin, path, body, "POST"), AcquireReadyStep(1)];
    var second := [HangUpStep(1), TickStep(UNCLAIMED_SPEND_TTL_MS + 1)];
    var third := [ArriveStep(origin, path, body, "POST"), AcquireReadyStep(2)];
    ReachesTrans(s2, second, s4, third, t);
    ReachesTrans(Start(0), first, s2, second + third, t);
    steps := first + (second + third);
  }

  /**
   * Honest failures: in every run, an answer the bridge made to a spend that was handed to the renderer, or that
   * stood in for another request's run, tells the caller to check first. One that calls a retry safe therefore
   * went to a read, or to a spend that was neither.
   */
  lemma {:induction false} HonestFailures(now: int, steps: seq<Step>, t: Bridge, id: nat, reply: BridgeReply)
    requires Reaches(Start(now), steps, t)
    requires id in t.requests && t.requests[id].stage == Finished(Some(reply)) && reply.FromBridge?
    ensures IsSpendMethodPath(t.requests[id].path) && (t.requests[id].dispatched || t.requests[id].repeated) ==> reply.failure.retry == CheckFirst
    ensures reply.failure.retry == Safe ==> !IsSpendMethodPath(t.requests[id].path) || (!t.requests[id].dispatched && !t.requests[id].repeated)
  {
    ReachableOk(now, steps, t);
    assert RequestOk(t, id);
    ReachableFlags(Start(now), steps, t);
  }

  ghost predicate FlagsOk(s: Bridge) {
    forall id :: id in s.requests ==> s.requests[id].spend == IsSpendMethodPath(s.requests[id].path)
  }

  ghost predicate SameAsk(s: Bridge, t: Bridge, id: nat) {
    id in t.requests ==>
      id in s.requests && t.requests[id].path == s.requests[id].path && t.requests[id].spend == s.requests[id].spend
  }

  lemma {:induction false} DeliverAsk(s: Bridge, id: nat, status: int, body: string, j: nat)
    requires id in s.requests
    ensures SameAsk(s, Deliver(s, id, status, body), j)
  {
  }

  /** No step changes what a known request asks for. */
  lemma {:induction false} AskSteady(s: Bridge, step: Step, id: nat)
    requires Enabled(s, step) && !step.ArriveStep?
    ensures SameAsk(s, Next(s, step), id)
  {
    match step
    case DeliverStep(i, status, body) => DeliverAsk(s, i, status, body, id);
    case HangUpStep(i) => HangUpAsk(s, i, id);
    case FailAllStep(reason) => FailAllAsk(s, reason, id);
    case _ => OneRequestAsk(s, step, id);
  }

  lemma {:induction false} HangUpAsk(s: Bridge, id: nat, j: nat)
    requires id in s.requests
    ensures SameAsk(s, HangUp(s, id), j)
  {
  }

  lemma {:induction false} FailAllAsk(s: Bridge, reason: string, j: nat)
    ensures SameAsk(s, FailAll(s, reason), j)
  {
  }

  lemma {:induction false} OneRequestAsk(s: Bridge, step: Step, j: nat)
    requires Enabled(s, step) && !step.ArriveStep? && !step.DeliverStep? && !step.HangUpStep? && !step.FailAllStep?
    ensures SameAsk(s, Next(s, step), j)
  {
    match step
    case AcquireReadyStep(i) => assert SameAsk(s, AcquireReady(s, i), j);
    case AcquireFailsStep(i, m, r) => assert SameAsk(s, AcquireFails(s, i, m, r), j);
    case DeadlineStep(i) => assert SameAsk(s, Deadline(s, i), j);
    case JoinDeadlineStep(i) => assert SameAsk(s, JoinDeadline(s, i), j);
    case ResumeStep(i) => assert SameAsk(s, Resume(s, i), j);
    case ResumeJoinedStep(i) => assert SameAsk(s, ResumeJoined(s, i), j);
    case FailStep(i) => assert SameAsk(s, Fail(s, i), j);
    case _ =>
  }

  lemma {:induction false} ArriveAsk(s: Bridge, origin: string, path: string, body: string, httpMethod: string, id: nat)
    requires id in Arrive(s, origin, path, body, httpMethod).requests
    ensures var r := Arrive(s, origin, path, body, httpMethod).requests[id];
            if id == s.nextId then r.path == path && r.spend == NewRequest(origin, path, body, httpMethod).spend
            else id in s.requests && r == s.requests[id]
  {
  }

  lemma {:induction false} FlagsStep(s: Bridge, step: Step)
    requires FlagsOk(s) && Enabled(s, step)
    ensures FlagsOk(Next(s, step))
  {
    forall id | id in Next(s, step).requests
      ensures Next(s, step).requests[id].spend == IsSpendMethodPath(Next(s, step).requests[id].path)
    {
      match step
      case ArriveStep(origin, path, body, httpMethod) => ArriveAsk(s, origin, path, body, httpMethod, id);
      case _ => AskSteady(s, step, id);
    }
  }

  /** A request's class is that of its path, throughout. */
  lemma {:induction false} ReachableFlags(s: Bridge, steps: seq<Step>, t: Bridge)
    requires FlagsOk(s) && Reaches(s, steps, t)
    ensures FlagsOk(t)
    decreases |steps|
  {
    if steps != [] {
      FlagsStep(s, steps[0]);
      ReachableFlags(Next(s, steps[0]), steps[1..], t);
    }
  }

  ghost predicate Lasting(r: Request, r': Request) {
    (r.dispatched ==> r'.dispatched) && (r.stage.Finished? ==> r'.stage == r.stage)
  }

  lemma {:induction false} DeliverLasting(s: Bridge, id: nat, status: int, body: string, j: nat)
    requires Inv(s) && Enabled(s, DeliverStep(id, status, body)) && j in s.requests
    ensures Lasting(s.requests[j], Deliver(s, id, status, body).requests[j])
  {
    SettleAt(s.ledger, id, FromWallet(status, body), s.now);
    assert RequestOk(s, id);
  }

  lemma {:induction false} FailAllLasting(s: Bridge, reason: string, j: nat)
    requires Inv(s) && j in s.requests
    ensures j in FailAll(s, reason).requests && Lasting(s.requests[j], FailAll(s, reason).requests[j])
  {
    if j in OpenWaiters(s.ledger) { OpenAreWaiting(s, j); }
  }

  /** Once handed over, always handed over; once answered, answered for good. */
  lemma {:induction false} AnsweredForGood(s: Bridge, step: Step, id: nat)
    requires Inv(s) && Enabled(s, step) && id in s.requests
    ensures id in Next(s, step).requests && Lasting(s.requests[id], Next(s, step).requests[id])
  {
    match step
    case DeliverStep(i, status, body) => DeliverLasting(s, i, status, body, id);
    case FailAllStep(reason) => FailAllLasting(s, reason, id);
    case ArriveStep(_, _, _, _) => assert RequestOk(s, s.nextId) && RequestOk(s, id);
    case _ =>
  }

  /**
   * A joiner is called when its run ends, unless that run was forgotten before
   * it reached the wallet: then its owner is answered and was never handed over.
   */
  lemma {:induction false} JoinersAreHeld(now: int, steps: seq<Step>, t: Bridge, w: nat)
    requires Reaches(Start(now), steps, t) && w in t.requests && t.requests[w].stage.Waiting?
    ensures var owner := t.requests[w].stage.owner;
            && owner in t.requests
            && if owner in t.ledger.keyById
               then t.ledger.keyById[owner] in t.ledger.runs && w in t.ledger.runs[t.ledger.keyById[owner]].waiters
               else t.requests[owner].stage.Finished? && !t.requests[owner].dispatched
  {
    ReachableOk(now, steps, t);
    assert RequestOk(t, w);
    EntryKey(t.ledger, t.requests[w].stage.owner);
  }

  /** The result of a run is handed out again to at most one later request. */
  lemma {:induction false} ReplayedOnce(now: int, steps: seq<Step>, s: Bridge, origin: string, path: string, body: string, httpMethod: string)
    requires Reaches(Start(now), steps, s)
    ensures var r := NewRequest(origin, path, body, httpMethod);
            var t := Arrive(s, origin, path, body, httpMethod);
            t.requests[s.nextId].stage.Finished? && t.requests[s.nextId].stage.answer.Some?
            && t.requests[s.nextId].stage.answer.value.FromWallet? ==>
              && r.Key() in s.ledger.runs
              && s.ledger.runs[r.Key()].requestId !in s.replayed
              && t.replayed == s.replayed + {s.ledger.runs[r.Key()].requestId}
  {
    var r := NewRequest(origin, path, body, httpMethod);
    var t := Arrive(s, origin, path, body, httpMethod);
    ReachableOk(now, steps, s);
    if r.Tracked() && r.Key() in s.ledger.runs {
      var owner := s.ledger.runs[r.Key()].requestId;
      EntryKey(s.ledger, owner);
      assert RequestOk(s, owner);
      assert r.Key() in Pruned(s).ledger.runs ==> Pruned(s).ledger.runs[r.Key()] == s.ledger.runs[r.Key()];
    }
  }
}
