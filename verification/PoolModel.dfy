/** Servers, requests and the request pool, with every step of src/memcache_pool.c between two socket events
    as a function on them. Server and request pointers are indices into the pool's tables. */
module PoolModel {
  import opened Basics
  import opened Wrappers
  import opened Sequences
  import opened Routing

  type RequestId = nat

  /** mmc_stream_t.status of the TCP stream. The state of a persistent stream that was not used yet
      (MMC_STATUS_UNKNOWN) is not part of this model. */
  datatype Status = Failed | Disconnected | Connected

  /** `wire` is the connection itself: the requests with at least one byte on the current stream whose reply was
      not read yet, in the order in which the server sees them. */
  datatype Server = Server(
    status: Status,
    sendreq: Option<RequestId>,
    sendqueue: seq<RequestId>,
    readreq: Option<RequestId>,
    readqueue: seq<RequestId>,
    wire: seq<RequestId>)

  /** `failover` tells mmc_pool_failover_handler from mmc_pool_failover_handler_null. */
  datatype Request = Request(
    key: Key,
    sendbuf: string,
    idx: nat,
    io: Option<ServerId>,
    failedServers: seq<ServerId>,
    failedIndex: nat,
    failover: bool)

  /** `log` records each completed reply: the request whose parser read it, and the request it answered. */
  datatype Pool = Pool(
    servers: seq<Server>,
    requests: seq<Request>,
    sending: seq<ServerId>,
    reading: seq<ServerId>,
    free: seq<RequestId>,
    log: seq<(RequestId, RequestId)>)

  function Listed(slot: Option<RequestId>): seq<RequestId> {
    match slot case None => [] case Some(r) => [r]
  }

  /** `sendreq` followed by `sendqueue`. */
  function SendLine(v: Server): seq<RequestId> { Listed(v.sendreq) + v.sendqueue }

  /** `readreq` followed by `readqueue`. */
  function ReadLine(v: Server): seq<RequestId> { Listed(v.readreq) + v.readqueue }

  predicate IdsOk(bound: nat, ids: seq<RequestId>) { forall r :: r in ids ==> r < bound }

  predicate ServerShaped(bound: nat, v: Server) { IdsOk(bound, ReadLine(v)) && IdsOk(bound, SendLine(v)) }

  datatype Side = SendSide | ReadSide

  function SlotOf(side: Side, v: Server): Option<RequestId> {
    if side.SendSide? then v.sendreq else v.readreq
  }

  /** Every pointer points into the tables. */
  ghost predicate Shaped(g: Config, p: Pool) {
    && ConfigOk(g)
    && |p.servers| == g.numServers
    && IdsOk(g.numServers, p.sending) && IdsOk(g.numServers, p.reading)
    && (forall s :: 0 <= s < |p.servers| ==> ServerShaped(|p.requests|, p.servers[s]))
  }

  function Down(p: Pool): set<ServerId> {
    set s: ServerId | s < |p.servers| && p.servers[s].status.Failed?
  }

  // ---------------------------------------------------------------------------------------------------------
  // How much failover is left

  function Attempts(g: Config, q: Request): nat {
    if q.failedIndex < g.maxAttempts then g.maxAttempts - q.failedIndex else 0
  }

  function Budget(g: Config, qs: seq<Request>): nat {
    if qs == [] then 0 else Attempts(g, qs[0]) + Budget(g, qs[1..])
  }

  lemma {:induction false} BudgetUpdate(g: Config, qs: seq<Request>, r: nat, q: Request)
    requires r < |qs|
    ensures Budget(g, qs[r := q]) == Budget(g, qs) - Attempts(g, qs[r]) + Attempts(g, q)
  {
    if r == 0 {
      assert qs[r := q][1..] == qs[1..];
    } else {
      assert qs[r := q][1..] == qs[1..][r - 1 := q];
      BudgetUpdate(g, qs[1..], r - 1, q);
    }
  }

  // ---------------------------------------------------------------------------------------------------------
  // Single updates

  function WithServer(p: Pool, s: ServerId, v: Server): Pool
    requires s < |p.servers|
  {
    p.(servers := p.servers[s := v])
  }

  function WithRequest(p: Pool, r: RequestId, q: Request): Pool
    requires r < |p.requests|
  {
    p.(requests := p.requests[r := q])
  }

  /** The send buffer goes back to its start. */
  function Rewind(p: Pool, r: RequestId): Pool
    requires r < |p.requests|
  {
    WithRequest(p, r, p.requests[r].(idx := 0))
  }

  /** mmc_pool_slot_send once the stream is open. */
  function SlotSend(p: Pool, s: ServerId, r: RequestId): Pool
    requires s < |p.servers| && r < |p.requests|
  {
    WithServer(WithRequest(p, r, p.requests[r].(io := Some(s))), s,
               p.servers[s].(status := Connected, sendreq := Some(r)))
  }

  /** Into the send slot if it is free, behind it otherwise. */
  function EnqueueSend(p: Pool, s: ServerId, r: RequestId): Pool
    requires s < |p.servers| && r < |p.requests|
  {
    var v := p.servers[s];
    if v.sendreq.None? then
      SlotSend(p, s, r).(sending := PushUnique(p.sending, s))
    else
      WithServer(p, s, v.(sendqueue := PushUnique(v.sendqueue, r)))
  }

  /** Into the read slot if it is free, behind it otherwise. */
  function EnqueueRead(p: Pool, s: ServerId, r: RequestId): Pool
    requires s < |p.servers|
  {
    var v := p.servers[s];
    if v.readreq.None? then
      WithServer(p, s, v.(readreq := Some(r))).(reading := PushUnique(p.reading, s))
    else
      WithServer(p, s, v.(readqueue := PushUnique(v.readqueue, r)))
  }

  function Enqueue(p: Pool, s: ServerId, r: RequestId): Pool
    requires s < |p.servers| && r < |p.requests|
  {
    EnqueueRead(EnqueueSend(Rewind(p, r), s, r), s, r)
  }

  lemma EnqueueServer(p: Pool, s: ServerId, r: RequestId)
    requires s < |p.servers| && r < |p.requests|
    ensures var p', v := Enqueue(p, s, r), p.servers[s];
            && p'.servers == p.servers[s := p'.servers[s]]
            && p'.servers[s].sendreq == (if v.sendreq.None? then Some(r) else v.sendreq)
            && p'.servers[s].sendqueue == (if v.sendreq.None? then v.sendqueue else PushUnique(v.sendqueue, r))
            && p'.servers[s].readreq == (if v.readreq.None? then Some(r) else v.readreq)
            && p'.servers[s].readqueue == (if v.readreq.None? then v.readqueue else PushUnique(v.readqueue, r))
            && p'.servers[s].status == (if v.sendreq.None? then Connected else v.status)
            && p'.servers[s].wire == v.wire
  {
  }

  lemma EnqueueRequests(p: Pool, s: ServerId, r: RequestId)
    requires s < |p.servers| && r < |p.requests|
    ensures var q := p.requests[r].(idx := 0);
            Enqueue(p, s, r).requests
            == p.requests[r := if p.servers[s].sendreq.None? then q.(io := Some(s)) else q]
  {
  }

  lemma EnqueueShaped(g: Config, p: Pool, s: ServerId, r: RequestId)
    requires Shaped(g, p) && s < |p.servers| && r < |p.requests|
    ensures Shaped(g, Enqueue(p, s, r)) && Budget(g, Enqueue(p, s, r).requests) == Budget(g, p.requests)
  {
    EnqueueServer(p, s, r);
    EnqueueRequests(p, s, r);
    var p' := Enqueue(p, s, r);
    BudgetUpdate(g, p.requests, r, p'.requests[r]);
    var v, v', n := p.servers[s], p'.servers[s], |p.requests|;
    assert ServerShaped(n, v);
    assert ServerShaped(n, v') by {
      forall x | x in ReadLine(v') ensures x < n { assert x in ReadLine(v) || x == r; }
      forall x | x in SendLine(v') ensures x < n { assert x in SendLine(v) || x == r; }
    }
  }

  /** mmc_pool_release */
  function Release(p: Pool, r: RequestId): Pool {
    p.(free := PushUnique(p.free, r))
  }

  /** The first half of mmc_server_deactivate: the server is down and holds nothing. */
  function Clear(p: Pool, s: ServerId): Pool
    requires s < |p.servers|
  {
    WithServer(p, s, Server(Failed, None, [], None, [], []))
      .(sending := Without(p.sending, s), reading := Without(p.reading, s))
  }

  /** The queue mmc_server_deactivate hands to the failover handlers. */
  function Evicted(v: Server): seq<RequestId> {
    match v.readreq case None => v.readqueue case Some(r) => PushUnique(v.readqueue, r)
  }

  predicate CanFailOver(g: Config, q: Request) {
    q.failover && g.allowFailover && q.failedIndex < g.maxAttempts && |q.failedServers| < g.numServers
  }

  // ---------------------------------------------------------------------------------------------------------
  // Scheduling and failover. `up` is the set of servers that would accept a connection: a server is connected to
  // at most once in a cascade, because one that refuses is marked failed and stays invalid.

  predicate NeedsConnect(p: Pool, s: ServerId)
    requires s < |p.servers|
  {
    p.servers[s].sendreq.None? && p.servers[s].status.Disconnected?
  }

  /** mmc_pool_schedule */
  function Schedule(g: Config, up: set<ServerId>, p: Pool, s: ServerId, r: RequestId): (p': Pool)
    requires Shaped(g, p) && s < |p.servers| && r < |p.requests|
    ensures Shaped(g, p') && |p'.requests| == |p.requests| && Budget(g, p'.requests) <= Budget(g, p.requests)
    decreases Budget(g, p.requests), 3, 0
  {
    BudgetUpdate(g, p.requests, r, p.requests[r].(idx := 0));
    if p.servers[s].status.Failed? then
      Failover(g, up, p, s, r)
    else if NeedsConnect(p, s) && s !in up then
      var p1 := Deactivate(g, up, Rewind(p, r), s);
      var p2 := WithServer(p1, s, p1.servers[s].(sendreq := None));
      SlotCleared(g, p1, s);
      Failover(g, up, p2, s, r)
    else
      EnqueueShaped(g, p, s, r);
      Enqueue(p, s, r)
  }

  /** mmc_pool_failover_handler, or its null variant */
  function Failover(g: Config, up: set<ServerId>, p: Pool, s: ServerId, r: RequestId): (p': Pool)
    requires Shaped(g, p) && s < |p.servers| && r < |p.requests|
    ensures Shaped(g, p') && |p'.requests| == |p.requests| && Budget(g, p'.requests) <= Budget(g, p.requests)
    decreases Budget(g, p.requests), 0, 0
  {
    var q := p.requests[r];
    if CanFailOver(g, q) then
      var (t, skip, index) := NextServer(g, Down(p), q.key, s, q.failedServers, q.failedIndex);
      var q' := q.(failedServers := skip, failedIndex := index);
      BudgetUpdate(g, p.requests, r, q');
      Schedule(g, up, WithRequest(p, r, q'), t, r)
    else
      Release(p, r)
  }

  /** mmc_server_deactivate */
  function Deactivate(g: Config, up: set<ServerId>, p: Pool, s: ServerId): (p': Pool)
    requires Shaped(g, p) && s < |p.servers|
    ensures Shaped(g, p') && |p'.requests| == |p.requests| && Budget(g, p'.requests) <= Budget(g, p.requests)
    decreases Budget(g, p.requests), 2, 0
  {
    assert ServerShaped(|p.requests|, p.servers[s]);
    assert forall r :: r in Evicted(p.servers[s]) ==> r in ReadLine(p.servers[s]);
    FailoverAll(g, up, Clear(p, s), s, Evicted(p.servers[s]))
  }

  /** The handlers of a deactivated server's requests, in queue order. */
  function FailoverAll(g: Config, up: set<ServerId>, p: Pool, s: ServerId, ids: seq<RequestId>): (p': Pool)
    requires Shaped(g, p) && s < |p.servers| && IdsOk(|p.requests|, ids)
    ensures Shaped(g, p') && |p'.requests| == |p.requests| && Budget(g, p'.requests) <= Budget(g, p.requests)
    decreases Budget(g, p.requests), 1, |ids|
  {
    if ids == [] then p
    else
      assert ids[0] in ids && forall r :: r in ids[1..] ==> r in ids;
      FailoverAll(g, up, Failover(g, up, p, s, ids[0]), s, ids[1..])
  }

  lemma EvictedInRange(g: Config, p: Pool, s: ServerId)
    requires Shaped(g, p) && s < |p.servers|
    ensures IdsOk(|p.requests|, Evicted(p.servers[s])) && Shaped(g, Clear(p, s))
  {
    assert ServerShaped(|p.requests|, p.servers[s]);
    assert forall r :: r in Evicted(p.servers[s]) ==> r in ReadLine(p.servers[s]);
  }

  lemma SlotCleared(g: Config, p: Pool, s: ServerId)
    requires Shaped(g, p) && s < |p.servers|
    ensures Shaped(g, WithServer(p, s, p.servers[s].(sendreq := None)))
  {
    var p' := WithServer(p, s, p.servers[s].(sendreq := None));
    assert ServerShaped(|p.requests|, p.servers[s]);
    assert forall x :: x in SendLine(p'.servers[s]) ==> x in SendLine(p.servers[s]);
    assert ReadLine(p'.servers[s]) == ReadLine(p.servers[s]);
  }

  lemma SlotSendShaped(g: Config, p: Pool, s: ServerId, r: RequestId)
    requires Shaped(g, p) && s < |p.servers| && r < |p.requests|
    ensures Shaped(g, SlotSend(p, s, r)) && |SlotSend(p, s, r).requests| == |p.requests|
  {
    var v, v' := p.servers[s], SlotSend(p, s, r).servers[s];
    assert ServerShaped(|p.requests|, v);
    assert ReadLine(v') == ReadLine(v);
    assert forall x :: x in SendLine(v') ==> x in SendLine(v) || x == r;
  }
}
