/** Scheduling, failover and deactivation keep the pool's invariant and lose no request. */
module PoolFailover {
  import opened Basics
  import opened Wrappers
  import opened Sequences
  import opened Routing
  import opened PoolModel
  import opened PoolInvariant

  lemma RequestsChange(p: Pool, qs: seq<Request>)
    requires ServersOk(p) && |qs| == |p.requests|
    requires forall r :: 0 <= r < |qs| && Tracked(p, r) ==> qs[r] == p.requests[r]
    ensures ServersOk(p.(requests := qs))
  {
    forall s | 0 <= s < |p.servers| ensures ServerOk(qs, s, p.servers[s]) {
      forall r | r in ReadLine(p.servers[s]) ensures r < |qs| && qs[r] == p.requests[r] {
        assert On(p, s, r);
      }
      ServerOkFrame(p.requests, qs, s, p.servers[s]);
    }
  }

  // ---------------------------------------------------------------------------------------------------------
  // Enqueue

  lemma EnqueueLine(p: Pool, s: ServerId, r: RequestId)
    requires s < |p.servers| && r < |p.requests| && !Tracked(p, r) && ServerOk(p.requests, s, p.servers[s])
    ensures var p' := Enqueue(p, s, r);
            && p'.servers == p.servers[s := p'.servers[s]]
            && Appended(p.servers[s], p'.servers[s], r)
            && p'.requests == p.requests[r := Queued(p.requests[r], s, p.servers[s].sendreq.None?)]
            && r !in ReadLine(p.servers[s]) && ReadLine(p'.servers[s]) == ReadLine(p.servers[s]) + [r]
            && p'.free == p.free && p'.log == p.log
            && p'.sending == (if p.servers[s].sendreq.None? then PushUnique(p.sending, s) else p.sending)
            && p'.reading == (if p.servers[s].readreq.None? then PushUnique(p.reading, s) else p.reading)
  {
    EnqueueServer(p, s, r);
    EnqueueRequests(p, s, r);
    assert r !in ReadLine(p.servers[s]) by { assert !On(p, s, r); }
    AppendedLines(p.servers[s], Enqueue(p, s, r).servers[s], r);
  }

  lemma EnqueueServersOk(p: Pool, s: ServerId, r: RequestId)
    requires ServersOk(p) && LengthsOk(p) && s < |p.servers| && r < |p.requests| && !Tracked(p, r)
    requires !p.servers[s].status.Failed?
    ensures ServersOk(Enqueue(p, s, r)) && LengthsOk(Enqueue(p, s, r))
  {
    assert ServerOk(p.requests, s, p.servers[s]);
    assert |p.requests[r].sendbuf| > 0;
    hide ServersOk, ServerOk, LengthsOk, Tracked, Enqueue, Appended, PushUnique, ReadLine;
    EnqueueLine(p, s, r);
    var p' := Enqueue(p, s, r);
    RequestsChange(p, p'.requests);
    AppendedServerOk(p.requests, s, p.servers[s], p'.servers[s], r);
    OthersOk(p, p', s);
    LengthsAfter(p, p', r);
  }

  lemma LengthsAfter(p: Pool, p': Pool, r: RequestId)
    requires LengthsOk(p) && |p'.requests| == |p.requests| && r < |p.requests|
    requires p'.requests == p.requests[r := p'.requests[r]] && p'.requests[r].sendbuf == p.requests[r].sendbuf
    ensures LengthsOk(p')
  {
  }

  lemma OthersOk(p: Pool, p': Pool, s: ServerId)
    requires ServersOk(p.(requests := p'.requests)) && s < |p.servers| == |p'.servers|
    requires p'.servers == p.servers[s := p'.servers[s]]
    requires ServerOk(p'.requests, s, p'.servers[s])
    ensures ServersOk(p')
  {
    hide ServerOk;
    var p1 := p.(requests := p'.requests);
    forall t | 0 <= t < |p'.servers| ensures ServerOk(p'.requests, t, p'.servers[t]) {
      if t != s { assert ServerOk(p1.requests, t, p1.servers[t]); }
    }
  }

  lemma PlaceOne(p: Pool, p': Pool, s: ServerId, r: RequestId)
    requires Exclusive(p) && !Tracked(p, r) && p'.free == p.free
    requires forall t, x :: On(p', t, x) <==> On(p, t, x) || (t == s && x == r)
    ensures Exclusive(p')
    ensures forall x :: Tracked(p', x) <==> Tracked(p, x) || x == r
  {
    assert On(p', s, r);
    forall x ensures Tracked(p', x) <==> Tracked(p, x) || x == r {
      if Tracked(p, x) && x !in p.free {
        var t :| On(p, t, x);
        assert On(p', t, x);
      }
    }
  }

  lemma EnqueuePlaces(p: Pool, s: ServerId, r: RequestId)
    requires Exclusive(p) && s < |p.servers| && r < |p.requests| && !Tracked(p, r)
    requires ServerOk(p.requests, s, p.servers[s])
    ensures Exclusive(Enqueue(p, s, r))
    ensures forall x :: Tracked(Enqueue(p, s, r), x) <==> Tracked(p, x) || x == r
  {
    EnqueueLine(p, s, r);
    PlaceOne(p, Enqueue(p, s, r), s, r);
  }

  lemma ListeningFill(p: Pool, p': Pool, side: Side, waiting: set<ServerId>, s: ServerId)
    requires Listening(p, side, waiting) && s < |p.servers| == |p'.servers|
    requires forall t :: 0 <= t < |p.servers| && t != s ==> p'.servers[t] == p.servers[t]
    requires !p.servers[s].status.Failed? && !p'.servers[s].status.Failed?
    requires SlotOf(side, p'.servers[s]).Some?
    requires ListOf(side, p')
             == if SlotOf(side, p.servers[s]).None? then PushUnique(ListOf(side, p), s) else ListOf(side, p)
    ensures Listening(p', side, waiting)
  {
  }

  lemma EnqueueAwake(p: Pool, s: ServerId, r: RequestId, toSend: set<ServerId>, toRead: set<ServerId>)
    requires Awake(p, toSend, toRead) && s < |p.servers| && r < |p.requests| && !Tracked(p, r)
    requires ServerOk(p.requests, s, p.servers[s]) && !p.servers[s].status.Failed?
    ensures Awake(Enqueue(p, s, r), toSend, toRead)
  {
    EnqueueLine(p, s, r);
    ListeningFill(p, Enqueue(p, s, r), SendSide, toSend, s);
    ListeningFill(p, Enqueue(p, s, r), ReadSide, toRead, s);
  }

  lemma EnqueueCalm(up: set<ServerId>, p: Pool, s: ServerId, r: RequestId)
    requires s < |p.servers| && r < |p.requests| && !Tracked(p, r) && ServerOk(p.requests, s, p.servers[s])
    requires !p.servers[s].status.Failed? && (NeedsConnect(p, s) ==> s in up)
    ensures Calm(up, p, Enqueue(p, s, r), [r])
    ensures Steady(p, Enqueue(p, s, r))
  {
    EnqueueLine(p, s, r);
    var p' := Enqueue(p, s, r);
    hide Enqueue, ServerOk, ReadLine, PushUnique, Tracked;
    OneServerCalm(up, p, p', s, r);
    OneServerSteady(p, p', s);
  }

  lemma OneServerCalm(up: set<ServerId>, p: Pool, p': Pool, s: ServerId, r: RequestId)
    requires s < |p.servers| == |p'.servers| && r < |p.requests| == |p'.requests| && p'.log == p.log
    requires p'.servers == p.servers[s := p'.servers[s]] && p'.requests == p.requests[r := p'.requests[r]]
    requires !p.servers[s].status.Failed?
    requires p'.servers[s].status.Connected? ==> p.servers[s].status.Connected? || s in up
    ensures Calm(up, p, p', [r])
  {
    hide Tracked;
    assert r in [r];
  }

  lemma OneServerSteady(p: Pool, p': Pool, s: ServerId)
    requires s < |p.servers| == |p'.servers| && p'.servers == p.servers[s := p'.servers[s]]
    requires Undisturbed(p, p', s)
    ensures Steady(p, p')
  {
  }

  lemma EnqueueOk(g: Config, p: Pool, s: ServerId, r: RequestId, toSend: set<ServerId>, toRead: set<ServerId>)
    requires PoolOk(g, p, toSend, toRead) && s < |p.servers| && r < |p.requests| && !Tracked(p, r)
    requires !p.servers[s].status.Failed?
    ensures PoolOk(g, Enqueue(p, s, r), toSend, toRead)
  {
    assert ServerOk(p.requests, s, p.servers[s]);
    hide ServersOk, ServerOk, LengthsOk, Exclusive, Awake, Tracked;
    EnqueueShaped(g, p, s, r);
    EnqueueServersOk(p, s, r);
    EnqueuePlaces(p, s, r);
    EnqueueAwake(p, s, r, toSend, toRead);
    assert Enqueue(p, s, r).log == p.log;
  }

  lemma EnqueueCarried(g: Config, up: set<ServerId>, p: Pool, s: ServerId, r: RequestId)
    requires Exclusive(p) && s < |p.servers| && r < |p.requests| && !Tracked(p, r)
    requires ServerOk(p.requests, s, p.servers[s])
    requires !p.servers[s].status.Failed? && (NeedsConnect(p, s) ==> s in up)
    ensures Carried(g, up, p, Enqueue(p, s, r), [r]) && Steady(p, Enqueue(p, s, r))
  {
    hide ServerOk, Exclusive, Tracked, Calm, Steady;
    EnqueuePlaces(p, s, r);
    EnqueueCalm(up, p, s, r);
    assert Enqueue(p, s, r).free == p.free;
  }

  // ---------------------------------------------------------------------------------------------------------
  // Clear, release, and the failover record

  lemma ListeningClear(p: Pool, p': Pool, side: Side, waiting: set<ServerId>, s: ServerId)
    requires Listening(p, side, waiting) && s < |p.servers| == |p'.servers|
    requires forall t :: 0 <= t < |p.servers| && t != s ==> p'.servers[t] == p.servers[t]
    requires p'.servers[s].status.Failed? && SlotOf(side, p'.servers[s]).None?
    requires ListOf(side, p') == Without(ListOf(side, p), s)
    ensures Listening(p', side, waiting)
  {
  }

  lemma TakeAll(p: Pool, p': Pool, s: ServerId)
    requires Exclusive(p) && p'.free == p.free
    requires forall t, x :: On(p', t, x) <==> On(p, t, x) && t != s
    ensures Exclusive(p')
    ensures forall x :: Tracked(p, x) <==> Tracked(p', x) || On(p, s, x)
    ensures forall x :: On(p, s, x) ==> !Tracked(p', x)
  {
    forall x ensures Tracked(p, x) <==> Tracked(p', x) || On(p, s, x) {
      if Tracked(p, x) && x !in p.free && !On(p, s, x) {
        var t :| On(p, t, x);
        assert On(p', t, x);
      }
    }
  }

  lemma ClearServersOk(p: Pool, s: ServerId)
    requires ServersOk(p) && s < |p.servers|
    ensures ServersOk(Clear(p, s))
  {
    var p' := Clear(p, s);
    var v := p'.servers[s];
    assert ReadLine(v) == [] && SendLine(v) == [];
    forall t | 0 <= t < |p'.servers| ensures ServerOk(p'.requests, t, p'.servers[t]) {
      if t != s { assert ServerOk(p.requests, t, p.servers[t]); }
    }
  }

  lemma ClearPlaces(p: Pool, s: ServerId)
    requires Exclusive(p) && s < |p.servers|
    ensures Exclusive(Clear(p, s))
    ensures forall x :: Tracked(p, x) <==> Tracked(Clear(p, s), x) || On(p, s, x)
    ensures forall x :: On(p, s, x) ==> !Tracked(Clear(p, s), x)
  {
    assert ReadLine(Clear(p, s).servers[s]) == [];
    TakeAll(p, Clear(p, s), s);
  }

  lemma ClearAwake(p: Pool, s: ServerId, toSend: set<ServerId>, toRead: set<ServerId>)
    requires Awake(p, toSend, toRead) && s < |p.servers|
    ensures Awake(Clear(p, s), toSend, toRead)
  {
    ListeningClear(p, Clear(p, s), SendSide, toSend, s);
    ListeningClear(p, Clear(p, s), ReadSide, toRead, s);
  }

  lemma ClearOk(g: Config, p: Pool, s: ServerId, toSend: set<ServerId>, toRead: set<ServerId>)
    requires PoolOk(g, p, toSend, toRead) && s < |p.servers|
    ensures PoolOk(g, Clear(p, s), toSend, toRead)
  {
    hide ServersOk, Exclusive, Awake;
    ClearServersOk(p, s);
    ClearPlaces(p, s);
    ClearAwake(p, s, toSend, toRead);
  }

  lemma ClearCalm(up: set<ServerId>, p: Pool, s: ServerId)
    requires s < |p.servers|
    ensures Calm(up, p, Clear(p, s), [])
  {
  }

  lemma ReleaseOk(g: Config, up: set<ServerId>, p: Pool, r: RequestId, toSend: set<ServerId>, toRead: set<ServerId>)
    requires PoolOk(g, p, toSend, toRead) && !Tracked(p, r) && GaveUp(g, p, r)
    ensures var p' := Release(p, r);
            PoolOk(g, p', toSend, toRead) && Carried(g, up, p, p', [r]) && p'.servers == p.servers
  {
    var p' := Release(p, r);
    assert forall t, x :: On(p', t, x) <==> On(p, t, x);
  }

  lemma RecordOk(g: Config, up: set<ServerId>, p: Pool, r: RequestId, q: Request,
                 toSend: set<ServerId>, toRead: set<ServerId>)
    requires PoolOk(g, p, toSend, toRead) && r < |p.requests| && !Tracked(p, r) && q.sendbuf == p.requests[r].sendbuf
    ensures var p' := WithRequest(p, r, q);
            PoolOk(g, p', toSend, toRead) && Carried(g, up, p, p', []) && p'.servers == p.servers && !Tracked(p', r)
  {
    var p' := WithRequest(p, r, q);
    RequestsChange(p, p'.requests);
    assert forall t, x :: On(p', t, x) <==> On(p, t, x);
  }

  // ---------------------------------------------------------------------------------------------------------
  // The recursion

  lemma CarriedTrans(g: Config, up: set<ServerId>, p: Pool, p1: Pool, p2: Pool, a: seq<RequestId>, b: seq<RequestId>)
    requires Carried(g, up, p, p1, a) && Carried(g, up, p1, p2, b) && forall x :: x in b ==> !Tracked(p1, x)
    ensures Carried(g, up, p, p2, a + b)
  {
    forall x | x in p2.free ensures x in p.free || GaveUp(g, p2, x) {
      if x in p1.free && x !in p.free {
        assert Tracked(p1, x) && GaveUp(g, p1, x);
      }
    }
  }

  lemma SteadyTrans(p: Pool, p1: Pool, p2: Pool)
    requires Steady(p, p1) && Steady(p1, p2)
    ensures Steady(p, p2)
  {
    forall s | 0 <= s < |p.servers| ensures Undisturbed(p, p2, s) {
      assert Undisturbed(p, p1, s) && Undisturbed(p1, p2, s);
    }
  }

  lemma DownSteady(p: Pool, p': Pool, s: ServerId)
    requires |p'.servers| == |p.servers| && s < |p.servers| && !p.servers[s].status.Connected?
    requires forall t :: 0 <= t < |p.servers| && t != s ==> Undisturbed(p, p', t)
    ensures Steady(p, p')
  {
  }

  lemma SteadySame(p: Pool, p': Pool)
    requires p'.servers == p.servers
    ensures Steady(p, p')
  {
  }

  lemma CarriedRefl(g: Config, up: set<ServerId>, p: Pool)
    ensures Carried(g, up, p, p, [])
  {
  }

  lemma DisconnectedIsEmpty(g: Config, p: Pool, s: ServerId, toSend: set<ServerId>, toRead: set<ServerId>)
    requires PoolOk(g, p, toSend, toRead) && s < |p.servers| && p.servers[s].status.Disconnected?
    ensures Evicted(p.servers[s]) == []
  {
    assert ServerOk(p.requests, s, p.servers[s]);
  }

  lemma FailedIsEmpty(g: Config, p: Pool, s: ServerId, toSend: set<ServerId>, toRead: set<ServerId>)
    requires PoolOk(g, p, toSend, toRead) && s < |p.servers| && p.servers[s].status.Failed?
    ensures p.servers[s].sendreq == None && ReadLine(p.servers[s]) == []
  {
    assert ServerOk(p.requests, s, p.servers[s]);
  }

  /** Every failover spends attempts, whatever it meets, so the mutual recursion of scheduling, failover and
      deactivation cannot go round for ever: the pool's remaining attempts strictly decrease before the next schedule
      and nothing in a cascade gives any back. */
  lemma FailoverSpends(g: Config, up: set<ServerId>, p: Pool, s: ServerId, r: RequestId)
    requires Shaped(g, p) && s < |p.servers| && r < |p.requests| && CanFailOver(g, p.requests[r])
    ensures Budget(g, Failover(g, up, p, s, r).requests) < Budget(g, p.requests)
  {
    var q := p.requests[r];
    var (t, skip, index) := NextServer(g, Down(p), q.key, s, q.failedServers, q.failedIndex);
    BudgetUpdate(g, p.requests, r, q.(failedServers := skip, failedIndex := index));
  }

  lemma AtServer(p: Pool, s: ServerId)
    requires ServersOk(p) && s < |p.servers|
    ensures ServerOk(p.requests, s, p.servers[s])
  {
  }

  /** mmc_pool_schedule: the request ends on a server or, out of options, in the free list. */
  lemma {:induction false} ScheduleOk(g: Config, up: set<ServerId>, p: Pool, s: ServerId, r: RequestId,
                   toSend: set<ServerId>, toRead: set<ServerId>)
    requires PoolOk(g, p, toSend, toRead) && s < |p.servers| && r < |p.requests| && !Tracked(p, r)
    ensures var p' := Schedule(g, up, p, s, r);
            && PoolOk(g, p', toSend, toRead) && Carried(g, up, p, p', [r])
            && Steady(p, p')
    decreases Budget(g, p.requests), 3, 0
  {
    hide ServersOk, LengthsOk, Exclusive, Awake, Attributed, Tracked, On, Steady, ServerOk, Enqueue, Evicted;
    if p.servers[s].status.Failed? {
      FailoverOk(g, up, p, s, r, toSend, toRead);
    } else if NeedsConnect(p, s) && s !in up {
      RefusedOk(g, up, p, s, r, toSend, toRead);
      var p1 := Deactivate(g, up, Rewind(p, r), s);
      hide PoolOk, Carried, Rewind, Deactivate;
      assert Shaped(g, p) && Shaped(g, p1);
      FailoverOk(g, up, p1, s, r, toSend, toRead);
      CarriedTrans(g, up, p, p1, Schedule(g, up, p, s, r), [], [r]);
      SteadyTrans(p, p1, Schedule(g, up, p, s, r));
      assert [] + [r] == [r];
    } else {
      EnqueueOk(g, p, s, r, toSend, toRead);
      assert ServerOk(p.requests, s, p.servers[s]) by { AtServer(p, s); }
      EnqueueCarried(g, up, p, s, r);
    }
  }

  /** The server that refused the connection is down, and the request has still no place. */
  lemma {:induction false} RefusedOk(g: Config, up: set<ServerId>, p: Pool, s: ServerId, r: RequestId,
                   toSend: set<ServerId>, toRead: set<ServerId>)
    requires PoolOk(g, p, toSend, toRead) && s < |p.servers| && r < |p.requests| && !Tracked(p, r)
    requires NeedsConnect(p, s) && s !in up
    ensures var p1 := Deactivate(g, up, Rewind(p, r), s);
            && PoolOk(g, p1, toSend, toRead) && Carried(g, up, p, p1, []) && Steady(p, p1)
            && !Tracked(p1, r) && Budget(g, p1.requests) <= Budget(g, p.requests) && |p1.requests| == |p.requests|
            && |p1.servers| == |p.servers| && WithServer(p1, s, p1.servers[s].(sendreq := None)) == p1
    decreases Budget(g, p.requests), 2, 1
  {
    hide ServersOk, LengthsOk, Exclusive, Awake, Attributed, Tracked, On, Steady, ServerOk, Evicted;
    var q := p.requests[r].(idx := 0);
    BudgetUpdate(g, p.requests, r, q);
    RecordOk(g, up, p, r, q, toSend, toRead);
    var p0 := Rewind(p, r);
    DisconnectedIsEmpty(g, p0, s, toSend, toRead);
    DeactivateOk(g, up, p0, s, toSend, toRead);
    var p1 := Deactivate(g, up, p0, s);
    FailedIsEmpty(g, p1, s, toSend, toRead);
    assert WithServer(p1, s, p1.servers[s].(sendreq := None)) == p1;
    CarriedTrans(g, up, p, p0, p1, [], []);
    DownSteady(p, p1, s);
  }

  lemma {:induction false} FailoverOk(g: Config, up: set<ServerId>, p: Pool, s: ServerId, r: RequestId,
                   toSend: set<ServerId>, toRead: set<ServerId>)
    requires PoolOk(g, p, toSend, toRead) && s < |p.servers| && r < |p.requests| && !Tracked(p, r)
    ensures var p' := Failover(g, up, p, s, r);
            && PoolOk(g, p', toSend, toRead) && Carried(g, up, p, p', [r])
            && Steady(p, p')
    decreases Budget(g, p.requests), 0, 0
  {
    hide ServersOk, LengthsOk, Exclusive, Awake, Attributed, Tracked, On, Steady;
    var q := p.requests[r];
    if CanFailOver(g, q) {
      var (t, skip, index) := NextServer(g, Down(p), q.key, s, q.failedServers, q.failedIndex);
      var q' := q.(failedServers := skip, failedIndex := index);
      BudgetUpdate(g, p.requests, r, q');
      RecordOk(g, up, p, r, q', toSend, toRead);
      var p1 := WithRequest(p, r, q');
      ScheduleOk(g, up, p1, t, r, toSend, toRead);
      CarriedTrans(g, up, p, p1, Failover(g, up, p, s, r), [], [r]);
      SteadySame(p, p1);
      SteadyTrans(p, p1, Failover(g, up, p, s, r));
      assert [] + [r] == [r];
    } else {
      ReleaseOk(g, up, p, r, toSend, toRead);
      SteadySame(p, Release(p, r));
    }
  }

  /** mmc_server_deactivate: the server is down and empty, and its requests are all somewhere else. */
  lemma {:induction false} DeactivateOk(g: Config, up: set<ServerId>, p: Pool, s: ServerId,
                     toSend: set<ServerId>, toRead: set<ServerId>)
    requires PoolOk(g, p, toSend, toRead) && s < |p.servers|
    ensures var p' := Deactivate(g, up, p, s);
            && PoolOk(g, p', toSend, toRead) && Carried(g, up, p, p', Evicted(p.servers[s]))
            && p'.servers[s].status.Failed?
            && (forall t :: 0 <= t < |p.servers| && t != s ==> Undisturbed(p, p', t))
    decreases Budget(g, p.requests), 2, 0
  {
    hide ServersOk, LengthsOk, Exclusive, Awake, Attributed, Tracked, On, GaveUp;
    ClearOk(g, p, s, toSend, toRead);
    ClearCalm(up, p, s);
    ClearPlaces(p, s);
    var p1 := Clear(p, s);
    var ids := Evicted(p.servers[s]);
    EvictedOk(g, p, s, toSend, toRead);
    FailoverAllOk(g, up, p1, s, ids, toSend, toRead);
    var p' := Deactivate(g, up, p, s);
    ClearCarried(g, up, p, p1, p', s, ids);
    forall t | 0 <= t < |p.servers| && t != s ensures Undisturbed(p, p', t) {
      assert p1.servers[t] == p.servers[t] && Undisturbed(p1, p', t);
    }
  }

  lemma ClearCarried(g: Config, up: set<ServerId>, p: Pool, p1: Pool, p': Pool, s: ServerId, ids: seq<RequestId>)
    requires Calm(up, p, p1, []) && p1.free == p.free && p1.requests == p.requests && Carried(g, up, p1, p', ids)
    requires forall x :: Tracked(p, x) <==> Tracked(p1, x) || On(p, s, x)
    requires forall x :: x in ids <==> On(p, s, x)
    ensures Carried(g, up, p, p', ids)
  {
  }

  lemma EvictedOk(g: Config, p: Pool, s: ServerId, toSend: set<ServerId>, toRead: set<ServerId>)
    requires PoolOk(g, p, toSend, toRead) && s < |p.servers|
    ensures NoDuplicates(Evicted(p.servers[s])) && IdsOk(|p.requests|, Evicted(p.servers[s]))
    ensures forall x :: x in Evicted(p.servers[s]) <==> On(p, s, x)
  {
    EvictedIsReadLine(p.requests, s, p.servers[s]);
  }

  lemma EvictedIsReadLine(qs: seq<Request>, s: ServerId, v: Server)
    requires ServerOk(qs, s, v)
    ensures NoDuplicates(Evicted(v)) && (forall x :: x in Evicted(v) <==> x in ReadLine(v))
    ensures IdsOk(|qs|, Evicted(v))
  {
    assert NoDuplicates(ReadLine(v)) && IdsOk(|qs|, ReadLine(v));
    hide ServerOk;
    assert NoDuplicates(v.readqueue) by {
      forall i, j | 0 <= i < j < |v.readqueue| ensures v.readqueue[i] != v.readqueue[j] {
        var k := |Listed(v.readreq)|;
        assert ReadLine(v)[k + i] == v.readqueue[i] && ReadLine(v)[k + j] == v.readqueue[j];
      }
    }
    assert forall x :: x in Evicted(v) <==> x in ReadLine(v);
  }

  lemma {:induction false} FailoverAllOk(g: Config, up: set<ServerId>, p: Pool, s: ServerId, ids: seq<RequestId>,
                      toSend: set<ServerId>, toRead: set<ServerId>)
    requires PoolOk(g, p, toSend, toRead) && s < |p.servers| && IdsOk(|p.requests|, ids)
    requires NoDuplicates(ids) && forall x :: x in ids ==> !Tracked(p, x)
    ensures var p' := FailoverAll(g, up, p, s, ids);
            && PoolOk(g, p', toSend, toRead) && Carried(g, up, p, p', ids)
            && Steady(p, p')
    decreases Budget(g, p.requests), 1, |ids|
  {
    hide ServersOk, LengthsOk, Exclusive, Awake, Attributed, Tracked, On, Steady;
    if ids == [] {
      CarriedRefl(g, up, p);
      SteadySame(p, p);
    } else {
      assert ids[0] in ids && forall x :: x in ids[1..] ==> x in ids && x != ids[0];
      FailoverOk(g, up, p, s, ids[0], toSend, toRead);
      var p1 := Failover(g, up, p, s, ids[0]);
      assert NoDuplicates(ids[1..]);
      FailoverAllOk(g, up, p1, s, ids[1..], toSend, toRead);
      var p' := FailoverAll(g, up, p, s, ids);
      CarriedTrans(g, up, p, p1, p', [ids[0]], ids[1..]);
      SteadyTrans(p, p1, p');
      assert [ids[0]] + ids[1..] == ids;
    }
  }
}
