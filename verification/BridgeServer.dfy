/**
 * The bridge's callbacks as they run: the request table, the ids awaiting the
 * renderer, the prompt flag and the ledger object, updated in place. Each
 * callback is proved to take exactly the step `BridgeModel` gives for it.
 */
module BridgeServers {
  import opened Prelude
  import opened WalletFailure
  import opened LedgerModel
  import opened BridgeModel
  import opened SpendLedgers

  class BridgeServer {
    var nextId: nat
    var requests: map<nat, Request>
    var pending: set<nat>
    var promptOpen: bool
    const ledger: SpendLedger
    ghost var now: int
    ghost var wallet: set<nat>
    ghost var gaveUp: map<nat, int>
    ghost var replayed: set<nat>

    ghost function View(): Bridge
      reads this, ledger, ledger.runs.Values
    {
      Bridge(nextId, requests, pending, ledger.View(), promptOpen, now, wallet, gaveUp, replayed)
    }

    ghost predicate Valid()
      reads this, ledger
    {
      ledger.Valid() && ledger.ttlMs == UNCLAIMED_SPEND_TTL_MS
    }

    constructor (ghost now: int)
      ensures Valid() && View() == Start(now)
    {
      nextId := 1;
      requests := map[];
      pending := {};
      promptOpen := false;
      this.now := now;
      wallet := {};
      gaveUp := map[];
      replayed := {};
      ledger := new SpendLedger(UNCLAIMED_SPEND_TTL_MS);
    }

    /** The handler up to its first wait. */
    method OnRequest(origin: string, path: string, body: string, httpMethod: string, clock: int)
      requires Valid() && clock == now
      modifies this, ledger, ledger.runs.Values
      ensures Valid() && View() == Arrive(old(View()), origin, path, body, httpMethod)
    {
      var r := NewRequest(origin, path, body, httpMethod);
      if r.Tracked() {
        OnSpend(r, clock);
      } else {
        requests := requests[nextId := r];
        nextId := nextId + 1;
      }
    }

    method OnSpend(r: Request, clock: int)
      requires Valid() && clock == now
      modifies this, ledger, ledger.runs.Values
      ensures Valid() && View() == ArriveSpend(Pruned(old(View())), r)
    {
      ghost var before := View();
      var begun := ledger.Begin(r.Key(), nextId, clock);
      ghost var after := ledger.View();
      ghost var u := Pruned(before);
      Record(r, begun, u);
      assert ledger.View() == after;
      SpendArrived(before, u, r, after, begun, View());
    }

    static lemma {:induction false} SpendArrived(before: Bridge, u: Bridge, r: Request, l: Ledger, begun: Begun, t: Bridge)
      requires (l, begun) == Begin(before.ledger, r.Key(), before.nextId, before.now, UNCLAIMED_SPEND_TTL_MS)
      requires u == Pruned(before)
      requires t.nextId == before.nextId + 1 && t.ledger == l && t.gaveUp == u.gaveUp
      requires t.requests == before.requests[before.nextId := r.(stage := StageFor(begun), repeated := !begun.Dispatch?)]
      requires t.replayed == if r.Key() in u.ledger.runs && u.ledger.runs[r.Key()].settled.Some?
                             then before.replayed + {u.ledger.runs[r.Key()].requestId} else before.replayed
      requires t.pending == before.pending && t.promptOpen == before.promptOpen
      requires t.now == before.now && t.wallet == before.wallet
      ensures t == ArriveSpend(Pruned(before), r)
    {
    }

    /** The new request takes the next id, in the stage `begin` put it in. */
    method Record(r: Request, begun: Begun, ghost u: Bridge)
      modifies this
      ensures nextId == old(nextId) + 1
      ensures requests == old(requests)[old(nextId) := r.(stage := StageFor(begun), repeated := !begun.Dispatch?)]
      ensures replayed == if r.Key() in u.ledger.runs && u.ledger.runs[r.Key()].settled.Some?
                          then old(replayed) + {u.ledger.runs[r.Key()].requestId} else old(replayed)
      ensures gaveUp == u.gaveUp
      ensures pending == old(pending) && promptOpen == old(promptOpen) && now == old(now) && wallet == old(wallet)
    {
      var stage := match begun
        case Replay(reply) => Finished(Some(reply))
        case Join(owner) => Waiting(owner)
        case Dispatch => Acquiring;
      requests := requests[nextId := r.(stage := stage, repeated := !begun.Dispatch?)];
      nextId := nextId + 1;
      gaveUp := u.gaveUp;
      if r.Key() in u.ledger.runs && u.ledger.runs[r.Key()].settled.Some? {
        replayed := replayed + {u.ledger.runs[r.Key()].requestId};
      }
    }

    method OnAcquired(id: nat)
      requires Valid() && Enabled(View(), AcquireReadyStep(id))
      modifies this
      ensures Valid() && View() == AcquireReady(old(View()), id)
    {
      pending := pending + {id};
      requests := requests[id := requests[id].(stage := InWallet, dispatched := true)];
      wallet := wallet + {id};
    }

    method OnAcquireFailed(id: nat, message: string, registered: bool)
      requires Valid() && Enabled(View(), AcquireFailsStep(id, message, registered))
      modifies this, ledger
      ensures Valid() && View() == AcquireFails(old(View()), id, message, registered)
    {
      if registered { pending := pending + {id}; }
      ledger.Done(id);
      Catch(id, message);
    }

    /** The catch clause after the ledger was told: answer, unless nobody is there to read it. */
    method Catch(id: nat, message: string)
      requires Valid() && id in requests
      modifies this
      ensures Valid() && View() == old(View()).(requests := WithStage(old(requests), id, Caught(old(requests)[id], message)))
    {
      var answer := if !requests[id].connected || Includes(message, CLIENT_DISCONNECTED) then None
                    else Some(BridgeErrorReply(message, requests[id].spend));
      requests := requests[id := requests[id].(stage := Finished(answer))];
    }

    /** Continuations of called waiters are queued. */
    method WakeAll(called: seq<nat>, reply: BridgeReply)
      requires Valid()
      modifies this`requests
      ensures requests == Wake(old(requests), (set w | w in called), reply)
    {
      ghost var before := requests;
      var i := 0;
      while i < |called|
        invariant 0 <= i <= |called|
        invariant requests == Wake(before, (set w | w in called[..i]), reply)
      {
        if called[i] in requests {
          requests := requests[called[i] := requests[called[i]].(stage := Woken(reply))];
        }
        assert called[..i + 1] == called[..i] + [called[i]];
        i := i + 1;
      }
      assert called[..i] == called;
    }

    lemma {:induction false} CalledSet(called: seq<nat>, waiters: set<nat>)
      requires multiset(called) == multiset(waiters)
      ensures (set w | w in called) == waiters
    {
      assert forall w :: w in called <==> w in multiset(called);
    }

    method DeliverHttpResponse(id: nat, status: int, body: string, clock: int)
      requires Valid() && clock == now && Enabled(View(), DeliverStep(id, status, body))
      modifies this, ledger, ledger.runs.Values
      ensures Valid() && View() == Deliver(old(View()), id, status, body)
    {
      ghost var before := View();
      var reply := FromWallet(status, body);
      var called := ledger.Settle(id, reply, clock);
      ghost var waiters := Settle(before.ledger, id, reply, now).1;
      CalledSet(called, waiters);
      Resolve(id, called, reply);
    }

    /** Called waiters go on, and so does the request itself if its answer was still awaited. */
    method Resolve(id: nat, called: seq<nat>, reply: BridgeReply)
      requires Valid() && id in requests
      modifies this
      ensures var woken := Wake(old(requests), (set w | w in called), reply);
              requests == if id in old(pending) && woken[id].stage.InWallet? then WithStage(woken, id, Replied(reply)) else woken
      ensures pending == old(pending) - {id} && wallet == old(wallet) - {id}
      ensures nextId == old(nextId) && promptOpen == old(promptOpen) && now == old(now)
      ensures gaveUp == old(gaveUp) && replayed == old(replayed)
    {
      WakeAll(called, reply);
      wallet := wallet - {id};
      if id in pending && requests[id].stage.InWallet? {
        requests := requests[id := requests[id].(stage := Replied(reply))];
      }
      pending := pending - {id};
    }

    method OnReply(id: nat, clock: int)
      requires Valid() && clock == now && Enabled(View(), ResumeStep(id))
      modifies this, ledger, ledger.runs.Values
      ensures Valid() && View() == Resume(old(View()), id)
    {
      var r := requests[id];
      if !r.connected {
        ledger.Orphan(id, clock);
        requests := requests[id := r.(stage := Finished(None))];
        return;
      }
      requests := requests[id := r.(stage := Finished(Some(r.stage.reply)))];
      ledger.Done(id);
    }

    method OnRunReply(id: nat)
      requires Valid() && Enabled(View(), ResumeJoinedStep(id))
      modifies this
      ensures Valid() && View() == ResumeJoined(old(View()), id)
    {
      var r := requests[id];
      requests := requests[id := r.(stage := Finished(if r.connected then Some(r.stage.reply) else None))];
    }

    method OnDeadline(id: nat, clock: int)
      requires Valid() && clock == now && Enabled(View(), DeadlineStep(id))
      modifies this, ledger.runs.Values
      ensures Valid() && View() == Deadline(old(View()), id)
    {
      if id !in pending || promptOpen { return; }
      pending := pending - {id};
      ledger.Orphan(id, clock);
      var r := requests[id];
      if r.stage.InWallet? {
        requests := requests[id := r.(stage := Failing(DeadlineMessage(r.httpMethod, r.path, r.spend)))];
      }
    }

    method OnJoinDeadline(id: nat)
      requires Valid() && Enabled(View(), JoinDeadlineStep(id))
      modifies this, ledger.runs.Values
      ensures Valid() && View() == JoinDeadline(old(View()), id)
    {
      var r := requests[id];
      ledger.Leave(r.stage.owner, id);
      requests := requests[id := r.(stage := Failing(DeadlineMessage(r.httpMethod, r.path, r.spend)))];
    }

    method OnClientGone(id: nat, clock: int)
      requires Valid() && clock == now && Enabled(View(), HangUpStep(id))
      modifies this, ledger.runs.Values
      ensures Valid() && View() == HangUp(old(View()), id)
    {
      var r := requests[id].(connected := false);
      requests := requests[id := r];
      if r.stage.InWallet? && id in pending {
        pending := pending - {id};
        ledger.Orphan(id, clock);
        requests := requests[id := r.(stage := Failing(HangUpMessage()))];
      } else if r.stage.Waiting? {
        ledger.Leave(r.stage.owner, id);
        requests := requests[id := r.(stage := Failing(HangUpMessage()))];
      }
    }

    method OnRejected(id: nat)
      requires Valid() && Enabled(View(), FailStep(id))
      modifies this, ledger
      ensures Valid() && View() == Fail(old(View()), id)
    {
      if !requests[id].dispatched { ledger.Done(id); }
      Catch(id, requests[id].stage.message);
    }

    method FailAllPendingRequests(reason: string, clock: int)
      requires Valid() && clock == now
      modifies this, ledger.runs.Values
      ensures Valid() && View() == FailAll(old(View()), reason)
    {
      ghost var before := View();
      var lost := LostReply(reason);
      var called := ledger.LoseAll(lost, clock);
      requests := map id | id in requests :: if id in called then requests[id].(stage := Woken(lost)) else requests[id];
      assert requests == Wake(before.requests, OpenWaiters(before.ledger), lost);
      RejectAll(reason);
    }

    method RejectAll(reason: string)
      requires Valid()
      modifies this`requests, this`pending
      ensures pending == {} && requests == RejectPending(old(requests), old(pending), reason)
    {
      ghost var before := requests;
      var todo := pending;
      assert requests == RejectPending(before, {}, reason);
      while todo != {}
        invariant pending == old(pending) && todo <= pending
        invariant requests == RejectPending(before, pending - todo, reason)
        decreases todo
      {
        var id :| id in todo;
        todo := todo - {id};
        if id in requests && requests[id].stage.InWallet? {
          requests := requests[id := requests[id].(stage := Failing(StoppedMessage(requests[id], reason)))];
        }
      }
      assert pending - todo == pending;
      pending := {};
    }

    method SetPromptOpen(open: bool)
      requires Valid()
      modifies this
      ensures Valid() && View() == Next(old(View()), PromptStep(open))
    {
      promptOpen := open;
    }
  }
}
