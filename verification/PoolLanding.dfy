/** Where a request ends up when it is scheduled or failed over, worked out beforehand from the probes and from which
    servers can be used. */
module PoolLanding {
  import opened Basics
  import opened Wrappers
  import opened Sequences
  import opened Routing
  import opened PoolModel
  import opened PoolInvariant

  /** A request scheduled for the server stays there: it is up, and its stream is open or can be opened. */
  predicate Usable(up: set<ServerId>, p: Pool, t: ServerId)
    requires t < |p.servers|
  {
    !p.servers[t].status.Failed? && !(NeedsConnect(p, t) && t !in up)
  }

  function Usables(up: set<ServerId>, p: Pool): set<ServerId> {
    set t: ServerId | t < |p.servers| && Usable(up, p, t)
  }

  /** A usable server, with the skip list and the index on arrival; or the attempts or servers run out first. */
  datatype Landing = Nowhere | Lands(server: ServerId, skip: seq<ServerId>, index: nat)

  /** The walk along a key's failover sequence to the first server in `ok`. */
  function Walk(g: Config, ok: set<ServerId>, key: Key, mmc: ServerId, failed: seq<ServerId>, index: nat)
    : (l: Landing)
    ensures l.Lands? ==> l.server in ok
    decreases g.maxAttempts - index
  {
    if index < g.maxAttempts && |failed| < g.numServers then
      var skip := PushUnique(failed, mmc);
      var (next, last) := FindNext(g, key, skip, index);
      if next in ok then Lands(next, skip, last) else Walk(g, ok, key, next, skip, last)
    else Nowhere
  }

  /** Where failover from server s takes the request. */
  function Place(g: Config, ok: set<ServerId>, q: Request, s: ServerId): (l: Landing)
    ensures l.Lands? ==> l.server in ok
  {
    if q.failover && g.allowFailover then Walk(g, ok, q.key, s, q.failedServers, q.failedIndex) else Nowhere
  }

  /** Where scheduling takes it. */
  function Destination(g: Config, ok: set<ServerId>, q: Request, s: ServerId): Landing {
    if s in ok then Lands(s, q.failedServers, q.failedIndex) else Place(g, ok, q, s)
  }

  /** The servers the walk tries in vain. */
  function Tried(g: Config, ok: set<ServerId>, key: Key, mmc: ServerId, failed: seq<ServerId>,
                 index: nat): set<ServerId>
    decreases g.maxAttempts - index
  {
    if index < g.maxAttempts && |failed| < g.numServers then
      var skip := PushUnique(failed, mmc);
      var (next, last) := FindNext(g, key, skip, index);
      if next in ok then {} else {next} + Tried(g, ok, key, next, skip, last)
    else {}
  }

  /** The servers found to be down when the request is failed over, and when it is scheduled. */
  function PlaceTries(g: Config, ok: set<ServerId>, q: Request, s: ServerId): set<ServerId> {
    if q.failover && g.allowFailover then Tried(g, ok, q.key, s, q.failedServers, q.failedIndex) else {}
  }

  function Tries(g: Config, ok: set<ServerId>, q: Request, s: ServerId): set<ServerId> {
    if s in ok then {} else {s} + PlaceTries(g, ok, q, s)
  }

  /** The failover handler passes over servers that are down without scheduling; the walk is the same. */
  lemma {:induction false} WalkNext(g: Config, ok: set<ServerId>, down: set<ServerId>, key: Key, mmc: ServerId,
                                    failed: seq<ServerId>, index: nat)
    requires index < g.maxAttempts && |failed| < g.numServers && ok !! down
    ensures var (next, skip, last) := NextServer(g, down, key, mmc, failed, index);
            Walk(g, ok, key, mmc, failed, index)
            == (if next in ok then Lands(next, skip, last) else Walk(g, ok, key, next, skip, last))
            && down + Tried(g, ok, key, mmc, failed, index)
               == down + if next in ok then {} else {next} + Tried(g, ok, key, next, skip, last)
    decreases g.maxAttempts - index
  {
    hide PushUnique, FindNext;
    var skip := PushUnique(failed, mmc);
    var (next, last) := FindNext(g, key, skip, index);
    if next in down && last < g.maxAttempts && |skip| < g.numServers {
      WalkNext(g, ok, down, key, next, skip, last);
    }
  }

  // ---------------------------------------------------------------------------------------------------------
  // Pools in which a server that cannot be used holds no requests

  ghost predicate TidyServer(v: Server) {
    (v.sendreq.None? ==> v.sendqueue == []) && (v.readreq.None? ==> v.readqueue == [])
  }

  ghost predicate Tidy(up: set<ServerId>, p: Pool) {
    forall t :: 0 <= t < |p.servers| ==>
      TidyServer(p.servers[t])
      && (!Usable(up, p, t) ==> ReadLine(p.servers[t]) == [] && SendLine(p.servers[t]) == [])
  }

  const DownServer := Server(Failed, None, [], None, [], [])

  /** Servers that cannot be used may have been found out. */
  ghost predicate Marked(up: set<ServerId>, p: Pool, p': Pool) {
    && |p'.servers| == |p.servers|
    && forall t :: 0 <= t < |p.servers| && !Usable(up, p, t) ==>
         p'.servers[t] == p.servers[t] || p'.servers[t] == DownServer
  }

  /** What is asked for did not change, only how far the attempts went. */
  predicate SameRequest(q: Request, q': Request) {
    q'.key == q.key && q'.sendbuf == q.sendbuf && q'.io == q.io && q'.failover == q.failover
  }

  /** The outcome for request r, in full: it is last on the server where the walk ends, or free and out of options;
      other requests and usable servers are as they were. */
  ghost predicate Landed(g: Config, up: set<ServerId>, p: Pool, p': Pool, r: RequestId, l: Landing) {
    && Marked(up, p, p') && |p'.requests| == |p.requests| && r < |p.requests| && p'.log == p.log
    && (forall x :: 0 <= x < |p.requests| && x != r ==> p'.requests[x] == p.requests[x])
    && match l
       case Nowhere =>
         && p'.free == PushUnique(p.free, r) && !CanFailOver(g, p'.requests[r])
         && SameRequest(p.requests[r], p'.requests[r])
         && (forall t :: 0 <= t < |p.servers| && Usable(up, p, t) ==> p'.servers[t] == p.servers[t])
       case Lands(s, skip, index) =>
         && s < |p.servers| && Usable(up, p, s) && p'.free == p.free
         && (forall t :: 0 <= t < |p.servers| && Usable(up, p, t) && t != s ==> p'.servers[t] == p.servers[t])
         && Appended(p.servers[s], p'.servers[s], r)
         && p'.requests[r] == Queued(p.requests[r].(failedServers := skip, failedIndex := index), s,
                                     p.servers[s].sendreq.None?)
  }

  /** What stays true of the pool, so that the next request can be looked at in the same way. */
  ghost predicate SameGround(up: set<ServerId>, p: Pool, p': Pool) {
    Tidy(up, p') && Usables(up, p') == Usables(up, p) && |p'.servers| == |p.servers|
  }

  lemma EnqueueLands(g: Config, up: set<ServerId>, p: Pool, s: ServerId, r: RequestId)
    requires Shaped(g, p) && Tidy(up, p) && s < |p.servers| && r < |p.requests| && Usable(up, p, s)
    ensures var q := p.requests[r];
            Landed(g, up, p, Enqueue(p, s, r), r, Lands(s, q.failedServers, q.failedIndex))
    ensures SameGround(up, p, Enqueue(p, s, r)) && Down(Enqueue(p, s, r)) == Down(p)
  {
    EnqueueServer(p, s, r);
    EnqueueRequests(p, s, r);
    EnqueueRest(p, s, r);
    assert Appended(p.servers[s], Enqueue(p, s, r).servers[s], r);
    hide *;
    AppendedGround(up, p, Enqueue(p, s, r), s, r);
    AppendedLands(g, up, p, Enqueue(p, s, r), s, r);
  }

  lemma AppendedLands(g: Config, up: set<ServerId>, p: Pool, p': Pool, s: ServerId, r: RequestId)
    requires s < |p.servers| == |p'.servers| && r < |p.requests| && Usable(up, p, s)
    requires p'.servers == p.servers[s := p'.servers[s]] && Appended(p.servers[s], p'.servers[s], r)
    requires p'.free == p.free && p'.log == p.log
    requires var q := p.requests[r].(idx := 0);
             p'.requests == p.requests[r := if p.servers[s].sendreq.None? then q.(io := Some(s)) else q]
    ensures Landed(g, up, p, p', r, Lands(s, p.requests[r].failedServers, p.requests[r].failedIndex))
  {
    hide Appended, Usable;
  }

  lemma AppendedGround(up: set<ServerId>, p: Pool, p': Pool, s: ServerId, r: RequestId)
    requires Tidy(up, p) && s < |p.servers| == |p'.servers| && p'.servers == p.servers[s := p'.servers[s]]
    requires Usable(up, p, s) && Appended(p.servers[s], p'.servers[s], r)
    ensures SameGround(up, p, p') && Down(p') == Down(p)
  {
    assert TidyServer(p.servers[s]);
    hide PushUnique;
    assert forall t :: 0 <= t < |p.servers| ==> (Usable(up, p', t) <==> Usable(up, p, t));
    assert TidyServer(p'.servers[s]);
  }

  lemma EnqueueRest(p: Pool, s: ServerId, r: RequestId)
    requires s < |p.servers| && r < |p.requests|
    ensures Enqueue(p, s, r).free == p.free && Enqueue(p, s, r).log == p.log
  {
  }

  /** An unusable server that is up has nothing to evict: it is marked, and that is all. */
  lemma MarkDown(g: Config, up: set<ServerId>, p: Pool, s: ServerId)
    requires Shaped(g, p) && Tidy(up, p) && s < |p.servers| && NeedsConnect(p, s) && s !in up
    ensures var p' := Deactivate(g, up, p, s);
            && p' == Clear(p, s) && p'.servers == p.servers[s := DownServer]
            && WithServer(p', s, p'.servers[s].(sendreq := None)) == p'
            && Shaped(g, p') && SameGround(up, p, p') && Down(p') == Down(p) + {s}
  {
    assert TidyServer(p.servers[s]);
    assert ReadLine(DownServer) == [] && SendLine(DownServer) == [];
    EvictedInRange(g, p, s);
    var p' := Clear(p, s);
    assert FailoverAll(g, up, p', s, []) == p';
    assert Evicted(p.servers[s]) == [];
    assert forall t :: 0 <= t < |p.servers| ==> (Usable(up, p', t) <==> Usable(up, p, t));
  }

  /** Up to here only the record of the request changed, and unusable servers were found out. */
  ghost predicate Behind(up: set<ServerId>, p: Pool, p1: Pool, r: RequestId) {
    && Marked(up, p, p1) && SameGround(up, p, p1)
    && |p1.requests| == |p.requests| && p1.log == p.log && p1.free == p.free
    && r < |p.requests| && SameRequest(p.requests[r], p1.requests[r])
    && (forall t :: 0 <= t < |p.servers| && Usable(up, p, t) ==> p1.servers[t] == p.servers[t])
    && (forall x :: 0 <= x < |p.requests| && x != r ==> p1.requests[x] == p.requests[x])
  }

  lemma LandedBehind(g: Config, up: set<ServerId>, p: Pool, p1: Pool, p2: Pool, r: RequestId, l: Landing)
    requires Behind(up, p, p1, r) && Landed(g, up, p1, p2, r, l)
    ensures Landed(g, up, p, p2, r, l)
  {
    assert forall t :: 0 <= t < |p.servers| ==> (Usable(up, p1, t) <==> t in Usables(up, p1));
    assert forall t :: 0 <= t < |p.servers| ==> (Usable(up, p, t) <==> t in Usables(up, p));
    hide Usable, Usables, Tidy, PushUnique, Shaped, CanFailOver;
  }

  lemma RecordBehind(g: Config, up: set<ServerId>, p: Pool, r: RequestId, q: Request)
    requires Shaped(g, p) && Tidy(up, p) && r < |p.requests| && SameRequest(p.requests[r], q)
    ensures var p1 := WithRequest(p, r, q); Shaped(g, p1) && Behind(up, p, p1, r) && Down(p1) == Down(p)
  {
    assert Usables(up, WithRequest(p, r, q)) == Usables(up, p);
    hide ServerShaped;
  }

  lemma MarkBehind(g: Config, up: set<ServerId>, p: Pool, s: ServerId, r: RequestId)
    requires Shaped(g, p) && Tidy(up, p) && s < |p.servers| && r < |p.requests| && NeedsConnect(p, s) && s !in up
    ensures var p1 := Deactivate(g, up, Rewind(p, r), s);
            && Shaped(g, p1) && Behind(up, p, p1, r) && Down(p1) == Down(p) + {s}
            && p1.requests[r] == p.requests[r].(idx := 0)
            && WithServer(p1, s, p1.servers[s].(sendreq := None)) == p1
            && Budget(g, p1.requests) == Budget(g, p.requests)
  {
    var p0 := Rewind(p, r);
    BudgetUpdate(g, p.requests, r, p.requests[r].(idx := 0));
    RecordBehind(g, up, p, r, p.requests[r].(idx := 0));
    hide Tidy, Shaped, Deactivate, Budget;
    MarkDown(g, up, p0, s);
  }

  lemma {:induction false} ScheduleLands(g: Config, up: set<ServerId>, p: Pool, s: ServerId, r: RequestId)
    requires Shaped(g, p) && Tidy(up, p) && s < |p.servers| && r < |p.requests|
    ensures Landed(g, up, p, Schedule(g, up, p, s, r), r, Destination(g, Usables(up, p), p.requests[r], s))
    ensures SameGround(up, p, Schedule(g, up, p, s, r))
    ensures Down(Schedule(g, up, p, s, r)) == Down(p) + Tries(g, Usables(up, p), p.requests[r], s)
    decreases Budget(g, p.requests), 3, 0
  {
    hide Landed, Behind, Marked, Enqueue, Deactivate, Failover, Walk, Tried, Budget;
    if p.servers[s].status.Failed? {
      FailoverLands(g, up, p, s, r);
      DownIn(up, p, s);
    } else if NeedsConnect(p, s) && s !in up {
      MarkBehind(g, up, p, s, r);
      var p1 := Deactivate(g, up, Rewind(p, r), s);
      assert Usables(up, p1) == Usables(up, p) && Tidy(up, p1) by { BehindGround(up, p, p1, r); }
      hide Tidy, Shaped, Down;
      FailoverLands(g, up, p1, s, r);
      LandedBehind(g, up, p, p1, Failover(g, up, p1, s, r), r, Place(g, Usables(up, p), p.requests[r], s));
    } else {
      EnqueueLands(g, up, p, s, r);
    }
  }

  lemma ReleaseLands(g: Config, up: set<ServerId>, p: Pool, r: RequestId)
    requires Tidy(up, p) && r < |p.requests| && !CanFailOver(g, p.requests[r])
    ensures Landed(g, up, p, Release(p, r), r, Nowhere) && SameGround(up, p, Release(p, r))
    ensures Down(Release(p, r)) == Down(p)
  {
    assert Usables(up, Release(p, r)) == Usables(up, p);
  }

  lemma DownIn(up: set<ServerId>, p: Pool, s: ServerId)
    requires s < |p.servers| && p.servers[s].status.Failed?
    ensures s in Down(p) && s !in Usables(up, p)
  {
  }

  lemma DownApart(up: set<ServerId>, p: Pool)
    ensures Usables(up, p) !! Down(p)
  {
  }

  lemma ShapedConfig(g: Config, p: Pool)
    requires Shaped(g, p)
    ensures ConfigOk(g) && g.numServers == |p.servers|
  {
  }

  lemma BehindGround(up: set<ServerId>, p: Pool, p1: Pool, r: RequestId)
    requires Behind(up, p, p1, r)
    ensures SameGround(up, p, p1) && |p1.requests| == |p.requests| > r && SameRequest(p.requests[r], p1.requests[r])
  {
  }

  lemma {:induction false} FailoverLands(g: Config, up: set<ServerId>, p: Pool, s: ServerId, r: RequestId)
    requires Shaped(g, p) && Tidy(up, p) && s < |p.servers| && r < |p.requests|
    ensures Landed(g, up, p, Failover(g, up, p, s, r), r, Place(g, Usables(up, p), p.requests[r], s))
    ensures SameGround(up, p, Failover(g, up, p, s, r))
    ensures Down(Failover(g, up, p, s, r)) == Down(p) + PlaceTries(g, Usables(up, p), p.requests[r], s)
    decreases Budget(g, p.requests), 0, 0
  {
    var q, ok := p.requests[r], Usables(up, p);
    if CanFailOver(g, q) {
      hide Landed, Behind, Marked, Schedule, NextServer, Walk, Tried, Budget, Tidy, Shaped, Down;
      var (t, skip, index) := NextServer(g, Down(p), q.key, s, q.failedServers, q.failedIndex);
      DownApart(up, p);
      WalkNext(g, ok, Down(p), q.key, s, q.failedServers, q.failedIndex);
      var q' := q.(failedServers := skip, failedIndex := index);
      var p1 := WithRequest(p, r, q');
      BudgetUpdate(g, p.requests, r, q');
      RecordBehind(g, up, p, r, q');
      BehindGround(up, p, p1, r);
      ShapedConfig(g, p);
      ScheduleLands(g, up, p1, t, r);
      LandedBehind(g, up, p, p1, Schedule(g, up, p1, t, r), r, Destination(g, ok, q', t));
    } else {
      ReleaseLands(g, up, p, r);
    }
  }

  // ---------------------------------------------------------------------------------------------------------
  // What is down stays down

  ghost predicate IsDown(p: Pool, t: ServerId) {
    t < |p.servers| && p.servers[t] == DownServer
  }

  /** Nothing brings a failed server back during a cascade. */
  lemma {:induction false} DownAfterSchedule(g: Config, up: set<ServerId>, p: Pool, s: ServerId, r: RequestId,
                                             t: ServerId)
    requires Shaped(g, p) && s < |p.servers| && r < |p.requests| && IsDown(p, t)
    ensures IsDown(Schedule(g, up, p, s, r), t)
    decreases Budget(g, p.requests), 3, 0
  {
    if p.servers[s].status.Failed? {
      DownAfterFailover(g, up, p, s, r, t);
    } else if NeedsConnect(p, s) && s !in up {
      BudgetUpdate(g, p.requests, r, p.requests[r].(idx := 0));
      DownAfterDeactivate(g, up, Rewind(p, r), s, t);
      var p1 := Deactivate(g, up, Rewind(p, r), s);
      var p2 := WithServer(p1, s, p1.servers[s].(sendreq := None));
      SlotCleared(g, p1, s);
      DownAfterFailover(g, up, p2, s, r, t);
    } else {
      EnqueueServer(p, s, r);
    }
  }

  lemma {:induction false} DownAfterFailover(g: Config, up: set<ServerId>, p: Pool, s: ServerId, r: RequestId,
                                             t: ServerId)
    requires Shaped(g, p) && s < |p.servers| && r < |p.requests| && IsDown(p, t)
    ensures IsDown(Failover(g, up, p, s, r), t)
    decreases Budget(g, p.requests), 0, 0
  {
    var q := p.requests[r];
    if CanFailOver(g, q) {
      var (next, skip, index) := NextServer(g, Down(p), q.key, s, q.failedServers, q.failedIndex);
      var q' := q.(failedServers := skip, failedIndex := index);
      BudgetUpdate(g, p.requests, r, q');
      DownAfterSchedule(g, up, WithRequest(p, r, q'), next, r, t);
    }
  }

  lemma {:induction false} DownAfterDeactivate(g: Config, up: set<ServerId>, p: Pool, s: ServerId, t: ServerId)
    requires Shaped(g, p) && s < |p.servers| && (IsDown(p, t) || t == s)
    ensures IsDown(Deactivate(g, up, p, s), t)
    decreases Budget(g, p.requests), 2, 0
  {
    assert ServerShaped(|p.requests|, p.servers[s]);
    assert forall r :: r in Evicted(p.servers[s]) ==> r in ReadLine(p.servers[s]);
    DownAfterAll(g, up, Clear(p, s), s, Evicted(p.servers[s]), t);
  }

  lemma {:induction false} DownAfterAll(g: Config, up: set<ServerId>, p: Pool, s: ServerId, ids: seq<RequestId>,
                                        t: ServerId)
    requires Shaped(g, p) && s < |p.servers| && IdsOk(|p.requests|, ids) && IsDown(p, t)
    ensures IsDown(FailoverAll(g, up, p, s, ids), t)
    decreases Budget(g, p.requests), 1, |ids|
  {
    if ids != [] {
      assert ids[0] in ids && forall r :: r in ids[1..] ==> r in ids;
      DownAfterFailover(g, up, p, s, ids[0], t);
      DownAfterAll(g, up, Failover(g, up, p, s, ids[0]), s, ids[1..], t);
    }
  }
}
