/**
 * The HTTP bridge over the spend ledger (electron/httpServer.ts): what each
 * callback does to the requests it knows, as functions on a state value.
 *
 * A callback runs to its end before the next one; callbacks of different
 * requests, the renderer, the clients and the clock interleave freely.
 */
module BridgeModel {
  import opened Prelude
  import opened WalletFailure
  import opened LedgerModel

  datatype Stage =
    | Acquiring                      // waiting for a window
    | InWallet                       // handed to the renderer, promise pending
    | Replied(reply: BridgeReply)    // renderer promise resolved, continuation not run yet
    | Waiting(owner: nat)            // waits on the run request `owner` started
    | Woken(reply: BridgeReply)      // its waiter was called, continuation not run yet
    | Failing(message: string)       // promise rejected, catch clause not run yet
    | Finished(answer: Option<BridgeReply>)

  datatype Request = Request(
    origin: string, path: string, body: string, httpMethod: string,
    spend: bool,        // isSpendMethodPath(path)
    stage: Stage,
    dispatched: bool,   // was handed to the renderer
    repeated: bool,     // joined another request's run, or was answered with its result
    connected: bool)    // its response can still be written
  {
    predicate Tracked() {
      httpMethod == "POST" && spend
    }

    function Key(): string {
      SpendRequestKey(origin, path, body)
    }

    /** Its own run was begun for it: it waits for a window or was handed over. */
    predicate Started() {
      stage.Acquiring? || dispatched
    }
  }

  /** What the key digests; the digest itself is taken to be injective. A missing origin counts as the empty one. */
  function SpendRequestKey(origin: string, path: string, body: string): string {
    origin + "\n" + path + "\n" + body
  }

  /** The position of the first line break, or the length where there is none. */
  function LineLength(s: string): nat {
    if s == "" || s[0] == '\n' then 0 else 1 + LineLength(s[1..])
  }

  lemma {:induction false} LineOf(a: string, x: string)
    requires '\n' !in a
    ensures LineLength(a + "\n" + x) == |a|
  {
    if a == "" {
      assert (a + "\n" + x)[0] == '\n';
    } else {
      assert (a + "\n" + x)[0] == a[0] && (a + "\n" + x)[1..] == a[1..] + "\n" + x;
      LineOf(a[1..], x);
    }
  }

  lemma {:induction false} LineEnds(a: string, b: string, x: string, y: string)
    requires '\n' !in a && '\n' !in b && a + "\n" + x == b + "\n" + y
    ensures a == b && x == y
  {
    LineOf(a, x);
    LineOf(b, y);
    var s := a + "\n" + x;
    assert a == s[..|a|] && b == s[..|b|];
    assert x == s[|a| + 1..] && y == s[|b| + 1..];
  }

  /** Two spends share a key exactly when they are the same spend: no header or path holds a line break. */
  lemma {:induction false} KeyNamesSpend(o1: string, p1: string, b1: string, o2: string, p2: string, b2: string)
    requires '\n' !in o1 && '\n' !in p1 && '\n' !in o2 && '\n' !in p2
    ensures SpendRequestKey(o1, p1, b1) == SpendRequestKey(o2, p2, b2) <==> o1 == o2 && p1 == p2 && b1 == b2
  {
    if SpendRequestKey(o1, p1, b1) == SpendRequestKey(o2, p2, b2) {
      assert SpendRequestKey(o1, p1, b1) == o1 + "\n" + (p1 + "\n" + b1);
      assert SpendRequestKey(o2, p2, b2) == o2 + "\n" + (p2 + "\n" + b2);
      LineEnds(o1, o2, p1 + "\n" + b1, p2 + "\n" + b2);
      LineEnds(p1, p2, b1, b2);
    }
  }

  datatype Bridge = Bridge(
    nextId: nat,
    requests: map<nat, Request>,
    pending: set<nat>,           // pendingRequests
    ledger: Ledger,
    promptOpen: bool,
    now: int,
    wallet: set<nat>,            // handed to the renderer and not answered by it
    gaveUp: map<nat, int>,       // runs prune removed, with how long they had idled
    replayed: set<nat>)          // runs whose settled result was handed out again

  const CLIENT_DISCONNECTED := "CLIENT_DISCONNECTED"
  const HANG_UP_DETAIL := ": HTTP client closed the connection"

  function HangUpMessage(): string {
    CLIENT_DISCONNECTED + HANG_UP_DETAIL
  }

  function Start(now: int): Bridge {
    Bridge(1, map[], {}, Ledger(map[], map[]), false, now, {}, map[], {})
  }

  function WithStage(requests: map<nat, Request>, id: nat, stage: Stage): map<nat, Request>
    requires id in requests
  {
    requests[id := requests[id].(stage := stage)]
  }

  /** Waiters that are called move on with the reply. */
  function Wake(requests: map<nat, Request>, called: set<nat>, reply: BridgeReply): map<nat, Request> {
    map id | id in requests :: if id in called then requests[id].(stage := Woken(reply)) else requests[id]
  }

  function Written(r: Request, reply: BridgeReply): Stage {
    Finished(if r.connected then Some(reply) else None)
  }

  /** The catch clause: what a failed request is answered with. */
  function Caught(r: Request, message: string): Stage {
    if !r.connected || Includes(message, CLIENT_DISCONNECTED) then Finished(None)
    else Finished(Some(BridgeErrorReply(message, r.spend)))
  }

  /** How long each run that prune drops had idled. */
  function GivenUp(l: Ledger, now: int): map<nat, int> {
    map id | id in l.keyById && l.keyById[id] in l.runs
             && l.runs[l.keyById[id]].Expired(now, UNCLAIMED_SPEND_TTL_MS)
           :: now - l.runs[l.keyById[id]].idleSince.value
  }

  function NewRequest(origin: string, path: string, body: string, httpMethod: string): Request {
    Request(origin, path, body, httpMethod, IsSpendMethodPath(path), Acquiring, false, false, true)
  }

  function Pruned(s: Bridge): Bridge {
    s.(ledger := Prune(s.ledger, s.now, UNCLAIMED_SPEND_TTL_MS), gaveUp := s.gaveUp + GivenUp(s.ledger, s.now))
  }

  /** Where a tracked request stands after the ledger looked at it. */
  function StageFor(begun: Begun): Stage {
    match begun
    case Dispatch => Acquiring
    case Join(owner) => Waiting(owner)
    case Replay(reply) => Finished(Some(reply))
  }

  /** A tracked request arrives at a ledger just pruned. */
  function ArriveSpend(u: Bridge, r: Request): Bridge {
    var id := u.nextId;
    var (l, begun) := BeginPruned(u.ledger, r.Key(), id);
    u.(nextId := id + 1,
       requests := u.requests[id := r.(stage := StageFor(begun), repeated := !begun.Dispatch?)],
       ledger := l,
       replayed := if r.Key() in u.ledger.runs && u.ledger.runs[r.Key()].settled.Some?
                   then u.replayed + {u.ledger.runs[r.Key()].requestId} else u.replayed)
  }

  function Arrive(s: Bridge, origin: string, path: string, body: string, httpMethod: string): Bridge {
    var r := NewRequest(origin, path, body, httpMethod);
    if r.Tracked() then ArriveSpend(Pruned(s), r)
    else s.(nextId := s.nextId + 1, requests := s.requests[s.nextId := r])
  }

  /** A window was found: register the request and hand it to the renderer. */
  function AcquireReady(s: Bridge, id: nat): Bridge
    requires id in s.requests
  {
    s.(requests := s.requests[id := s.requests[id].(stage := InWallet, dispatched := true)],
       pending := s.pending + {id},
       wallet := s.wallet + {id})
  }

  /** No window, or handing over threw: the request was never given to the renderer. */
  function AcquireFails(s: Bridge, id: nat, message: string, registered: bool): Bridge
    requires id in s.requests
  {
    s.(requests := WithStage(s.requests, id, Caught(s.requests[id], message)),
       pending := if registered then s.pending + {id} else s.pending,
       ledger := Done(s.ledger, id))
  }

  /** deliverHttpResponse */
  function Deliver(s: Bridge, id: nat, status: int, body: string): Bridge
    requires id in s.requests
  {
    var reply := FromWallet(status, body);
    var (l, called) := Settle(s.ledger, id, reply, s.now);
    var woken := Wake(s.requests, called, reply);
    s.(ledger := l,
       requests := if id in s.pending && woken[id].stage.InWallet? then WithStage(woken, id, Replied(reply)) else woken,
       pending := s.pending - {id},
       wallet := s.wallet - {id})
  }

  /** The handler goes on after its renderer promise resolved. */
  function Resume(s: Bridge, id: nat): Bridge
    requires id in s.requests && s.requests[id].stage.Replied?
  {
    var r := s.requests[id];
    s.(requests := WithStage(s.requests, id, Written(r, r.stage.reply)),
       ledger := if r.connected then Done(s.ledger, id) else Orphan(s.ledger, id, s.now))
  }

  /** The handler of a joiner goes on after its waiter was called. */
  function ResumeJoined(s: Bridge, id: nat): Bridge
    requires id in s.requests && s.requests[id].stage.Woken?
  {
    s.(requests := WithStage(s.requests, id, Written(s.requests[id], s.requests[id].stage.reply)))
  }

  /** The deadline of a dispatched request; it is put off while a prompt is open. */
  function Deadline(s: Bridge, id: nat): Bridge
    requires id in s.requests
  {
    if id !in s.pending || s.promptOpen then s
    else
      var r := s.requests[id];
      s.(pending := s.pending - {id},
         ledger := Orphan(s.ledger, id, s.now),
         requests := if r.stage.InWallet?
                     then WithStage(s.requests, id, Failing(DeadlineMessage(r.httpMethod, r.path, r.spend)))
                     else s.requests)
  }

  /** The deadline a joiner runs under; no prompt holds it. */
  function JoinDeadline(s: Bridge, id: nat): Bridge
    requires id in s.requests && s.requests[id].stage.Waiting?
  {
    var r := s.requests[id];
    s.(ledger := Leave(s.ledger, r.stage.owner, id),
       requests := WithStage(s.requests, id, Failing(DeadlineMessage(r.httpMethod, r.path, r.spend))))
  }

  /** The client closes its connection. */
  function HangUp(s: Bridge, id: nat): Bridge
    requires id in s.requests
  {
    var r := s.requests[id].(connected := false);
    var gone := s.(requests := s.requests[id := r]);
    if r.stage.InWallet? && id in s.pending then
      gone.(pending := s.pending - {id},
            ledger := Orphan(s.ledger, id, s.now),
            requests := s.requests[id := r.(stage := Failing(HangUpMessage()))])
    else if r.stage.Waiting? then
      gone.(ledger := Leave(s.ledger, r.stage.owner, id),
            requests := s.requests[id := r.(stage := Failing(HangUpMessage()))])
    else gone
  }

  /** The catch clause of a handler whose promise was rejected. */
  function Fail(s: Bridge, id: nat): Bridge
    requires id in s.requests && s.requests[id].stage.Failing?
  {
    var r := s.requests[id];
    s.(requests := WithStage(s.requests, id, Caught(r, r.stage.message)),
       ledger := if r.dispatched then s.ledger else Done(s.ledger, id))
  }

  function LostDetail(reason: string): string {
    ": the wallet stopped (" + reason + ") while a spend was in it — it may have completed; reconcile before retrying"
  }

  function StoppedDetail(r: Request, reason: string): string {
    ": " + r.httpMethod + " " + r.path + " was in the wallet when it stopped (" + reason +
      ") — it may have completed; reconcile before retrying"
  }

  function StoppedMessage(r: Request, reason: string): string {
    if r.spend then PENDING + StoppedDetail(r, reason) else reason
  }

  /** What every caller of a lost run is told; its path is empty, which is no read. */
  function LostReply(reason: string): BridgeReply {
    BridgeErrorReply(PENDING + LostDetail(reason), true)
  }

  /** Every pending request is rejected. */
  function RejectPending(requests: map<nat, Request>, pending: set<nat>, reason: string): map<nat, Request> {
    map id | id in requests ::
      if id in pending && requests[id].stage.InWallet?
      then requests[id].(stage := Failing(StoppedMessage(requests[id], reason))) else requests[id]
  }

  /** failAllPendingRequests: the renderer is gone or the server stops. */
  function FailAll(s: Bridge, reason: string): Bridge {
    var lost := LostReply(reason);
    s.(ledger := LoseAll(s.ledger, lost, s.now),
       requests := RejectPending(Wake(s.requests, OpenWaiters(s.ledger), lost), s.pending, reason),
       pending := {})
  }

  datatype Step =
    | ArriveStep(origin: string, path: string, body: string, httpMethod: string)
    | AcquireReadyStep(id: nat)
    | AcquireFailsStep(id: nat, message: string, registered: bool)
    | DeliverStep(id: nat, status: int, body: string)
    | ResumeStep(id: nat)
    | ResumeJoinedStep(id: nat)
    | DeadlineStep(id: nat)
    | JoinDeadlineStep(id: nat)
    | HangUpStep(id: nat)
    | FailStep(id: nat)
    | FailAllStep(reason: string)
    | PromptStep(open: bool)
    | TickStep(later: nat)

  /** When a callback can run. The renderer answers only what it was handed, possibly more than once. */
  predicate Enabled(s: Bridge, step: Step) {
    match step
    case ArriveStep(_, _, _, _) => true
    case AcquireReadyStep(id) => id in s.requests && s.requests[id].stage.Acquiring?
    case AcquireFailsStep(id, _, _) => id in s.requests && s.requests[id].stage.Acquiring?
    case DeliverStep(id, _, _) => id in s.requests && s.requests[id].dispatched
    case ResumeStep(id) => id in s.requests && s.requests[id].stage.Replied?
    case ResumeJoinedStep(id) => id in s.requests && s.requests[id].stage.Woken?
    case DeadlineStep(id) => id in s.requests && id in s.pending
    case JoinDeadlineStep(id) => id in s.requests && s.requests[id].stage.Waiting?
    case HangUpStep(id) => id in s.requests && s.requests[id].connected
    case FailStep(id) => id in s.requests && s.requests[id].stage.Failing?
    case FailAllStep(_) => true
    case PromptStep(_) => true
    case TickStep(_) => true
  }

  function Next(s: Bridge, step: Step): Bridge
    requires Enabled(s, step)
  {
    match step
    case ArriveStep(origin, path, body, httpMethod) => Arrive(s, origin, path, body, httpMethod)
    case AcquireReadyStep(id) => AcquireReady(s, id)
    case AcquireFailsStep(id, message, registered) => AcquireFails(s, id, message, registered)
    case DeliverStep(id, status, body) => Deliver(s, id, status, body)
    case ResumeStep(id) => Resume(s, id)
    case ResumeJoinedStep(id) => ResumeJoined(s, id)
    case DeadlineStep(id) => Deadline(s, id)
    case JoinDeadlineStep(id) => JoinDeadline(s, id)
    case HangUpStep(id) => HangUp(s, id)
    case FailStep(id) => Fail(s, id)
    case FailAllStep(reason) => FailAll(s, reason)
    case PromptStep(open) => s.(promptOpen := open)
    case TickStep(later) => s.(now := s.now + later)
  }

  ghost predicate Reaches(s: Bridge, steps: seq<Step>, t: Bridge)
    decreases |steps|
  {
    if steps == [] then s == t
    else Enabled(s, steps[0]) && Reaches(Next(s, steps[0]), steps[1..], t)
  }
}
