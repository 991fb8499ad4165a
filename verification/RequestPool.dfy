/** The pool as an object: the code of src/memcache_pool.c updating its tables in place, step by step. Each method
    computes the function of the same name; what those functions keep is proved in PoolFailover and PoolRuns. */
module RequestPool {
  import opened Basics
  import opened Wrappers
  import opened Sequences
  import opened Routing
  import opened PoolModel
  import opened PoolRound
  import opened PoolTurns
  import opened PoolRuns
  import PoolClients

  class MmcPool {
    const g: Config
    var servers: seq<Server>
    var requests: seq<Request>
    var sending: seq<ServerId>
    var reading: seq<ServerId>
    var free: seq<RequestId>
    var log: seq<(RequestId, RequestId)>

    ghost function View(): Pool
      reads this
    {
      Pool(servers, requests, sending, reading, free, log)
    }

    ghost predicate Valid()
      reads this
    {
      Shaped(g, View())
    }

    constructor (g: Config)
      requires ConfigOk(g)
      ensures this.g == g && Valid() && View() == NewPool(g) && Settled(g, View())
    {
      this.g := g;
      servers := seq(g.numServers, _ => Server(Disconnected, None, [], None, [], []));
      requests, sending, reading, free, log := [], [], [], [], [];
      NewPoolSettled(g);
    }

    method Update(s: ServerId, v: Server)
      requires s < |servers|
      modifies `servers
      ensures View() == WithServer(old(View()), s, v)
    {
      servers := servers[s := v];
    }

    /** mmc_pool_slot_send, with the request that fills the slot; false if the stream could not be opened. */
    method SlotSend(up: set<ServerId>, s: ServerId, r: RequestId) returns (ok: bool)
      requires Valid() && s < |servers| && r < |requests| && !servers[s].status.Failed?
      modifies this
      ensures Valid() && |requests| == old(|requests|) && Budget(g, requests) <= old(Budget(g, requests))
      ensures ok == !(old(servers[s].status.Disconnected?) && s !in up)
      ensures ok ==> View() == PoolModel.SlotSend(old(View()), s, r)
      ensures !ok ==> var p1 := PoolModel.Deactivate(g, up, old(View()), s);
                      View() == WithServer(p1, s, p1.servers[s].(sendreq := None))
      decreases Budget(g, requests), 3, 0
    {
      if servers[s].status.Disconnected? && s !in up {
        Deactivate(up, s);
        ghost var p1 := View();
        Update(s, servers[s].(sendreq := None));
        SlotCleared(g, p1, s);
        return false;
      }
      SlotSendShaped(g, View(), s, r);
      BudgetUpdate(g, requests, r, requests[r].(io := Some(s)));
      requests := requests[r := requests[r].(io := Some(s))];
      servers := servers[s := servers[s].(status := Connected, sendreq := Some(r))];
      return true;
    }

    /** mmc_pool_schedule */
    method Schedule(up: set<ServerId>, s: ServerId, r: RequestId)
      requires Valid() && s < |servers| && r < |requests|
      modifies this
      ensures Valid() && View() == PoolModel.Schedule(g, up, old(View()), s, r)
      decreases Budget(g, requests), 4, 0
    {
      if servers[s].status.Failed? {
        Failover(up, s, r);
        return;
      }
      BudgetUpdate(g, requests, r, requests[r].(idx := 0));
      EnqueueShaped(g, View(), s, r);
      requests := requests[r := requests[r].(idx := 0)];
      if servers[s].sendreq.None? {
        var ok := SlotSend(up, s, r);
        if !ok {
          Failover(up, s, r);
          return;
        }
        sending := PushUnique(sending, s);
      } else {
        servers := servers[s := servers[s].(sendqueue := PushUnique(servers[s].sendqueue, r))];
      }
      if servers[s].readreq.None? {
        servers := servers[s := servers[s].(readreq := Some(r))];
        reading := PushUnique(reading, s);
      } else {
        servers := servers[s := servers[s].(readqueue := PushUnique(servers[s].readqueue, r))];
      }
    }

    /** The do-while loop of the failover handler. */
    method PickServer(key: Key, mmc: ServerId, failed: seq<ServerId>, index: nat)
      returns (next: ServerId, skip: seq<ServerId>, last: nat)
      requires Valid() && index < g.maxAttempts
      ensures (next, skip, last) == NextServer(g, Down(View()), key, mmc, failed, index)
      ensures next < |servers|
    {
      skip := PushUnique(failed, mmc);
      next, last := FindNextLoop(g, key, skip, index);
      while servers[next].status.Failed? && last < g.maxAttempts && |skip| < g.numServers
        invariant next < |servers|
        invariant NextServer(g, Down(View()), key, mmc, failed, index)
                  == if next in Down(View()) && last < g.maxAttempts && |skip| < g.numServers
                     then NextServer(g, Down(View()), key, next, skip, last) else (next, skip, last)
        decreases g.maxAttempts - last
      {
        skip := PushUnique(skip, next);
        next, last := FindNextLoop(g, key, skip, last);
      }
    }

    /** mmc_pool_failover_handler, or its null variant */
    method Failover(up: set<ServerId>, s: ServerId, r: RequestId)
      requires Valid() && s < |servers| && r < |requests|
      modifies this
      ensures Valid() && View() == PoolModel.Failover(g, up, old(View()), s, r)
      decreases Budget(g, requests), 0, 0
    {
      var q := requests[r];
      if !CanFailOver(g, q) {
        free := PushUnique(free, r);
        return;
      }
      var mmc, skip, index := PickServer(q.key, s, q.failedServers, q.failedIndex);
      ghost var q' := q.(failedServers := skip, failedIndex := index);
      BudgetUpdate(g, requests, r, q');
      requests := requests[r := requests[r].(failedServers := skip, failedIndex := index)];
      Schedule(up, mmc, r);
    }

    /** mmc_server_deactivate */
    method Deactivate(up: set<ServerId>, s: ServerId)
      requires Valid() && s < |servers|
      modifies this
      ensures Valid() && View() == PoolModel.Deactivate(g, up, old(View()), s)
      decreases Budget(g, requests), 2, 0
    {
      ghost var p := View();
      EvictedInRange(g, p, s);
      sending := Without(sending, s);
      reading := Without(reading, s);
      var readqueue := servers[s].readqueue;
      if servers[s].readreq.Some? {
        readqueue := PushUnique(readqueue, servers[s].readreq.value);
      }
      servers := servers[s := Server(Failed, None, [], None, [], [])];
      assert View() == Clear(p, s) && readqueue == Evicted(p.servers[s]);
      while readqueue != []
        invariant Valid() && s < |servers| && |requests| == |p.requests| && IdsOk(|requests|, readqueue)
        invariant Budget(g, requests) <= Budget(g, p.requests)
        invariant FailoverAll(g, up, View(), s, readqueue) == PoolModel.Deactivate(g, up, p, s)
        decreases |readqueue|
      {
        var r := readqueue[0];
        assert r in readqueue && forall x :: x in readqueue[1..] ==> x in readqueue;
        readqueue := readqueue[1..];
        Failover(up, s, r);
      }
    }

    // -------------------------------------------------------------------------------------------------------
    // Clients

    /** mmc_pool_request_alloc */
    method Alloc() returns (r: RequestId)
      requires Valid() && PoolClients.FreeInRange(View())
      modifies this
      ensures Valid() && PoolClients.FreeInRange(View()) && r < |requests|
      ensures (View(), r) == PoolClients.Alloc(old(View()))
      ensures r == (if old(free) == [] then old(|requests|) else old(free)[0])
      ensures free == if old(free) == [] then [] else old(free)[1..]
      ensures var q := requests[r]; q.sendbuf == "" && q.failedServers == [] && q.failedIndex == 0
    {
      var blank := Request("", "", 0, None, [], 0, false);
      forall s | 0 <= s < |servers| ensures ServerShaped(|requests| + 1, servers[s]) {
        assert ServerShaped(|requests|, servers[s]);
      }
      if free == [] {
        r := |requests|;
        requests := requests + [blank];
      } else {
        r := free[0];
        assert r in free && forall x :: x in free[1..] ==> x in free;
        free := free[1..];
        requests := requests[r := blank];
      }
    }

    /** mmc_pool_clone_request */
    method CloneRequest(r: RequestId) returns (c: RequestId)
      requires Valid() && PoolClients.FreeInRange(View()) && r < |requests|
      modifies this
      ensures Valid() && PoolClients.FreeInRange(View()) && c < |requests| && |requests| >= old(|requests|)
      ensures (View(), c) == PoolClients.Clone(old(View()), r)
    {
      c := Alloc();
      requests := requests[c := requests[c].(key := requests[r].key, sendbuf := requests[r].sendbuf)];
    }

    /** mmc_pool_schedule_key: the copies' servers are looked for one at a time, between the schedules. */
    method ScheduleKey(up: set<ServerId>, key: Key, r: RequestId, redundancy: nat)
      requires Valid() && PoolClients.FreeInRange(View()) && r < |requests|
      modifies this
      ensures Valid() && PoolClients.FreeInRange(View())
      ensures View() == PoolClients.ScheduleKey(g, up, old(View()), r, key, redundancy)
    {
      var mmc := FindServer(key);
      ghost var copies := PoolClients.Copies(g, redundancy);
      PoolClients.FreeAfterSchedule(g, up, View(), mmc, r);
      Schedule(up, mmc, r);
      PoolClients.ReplicasInRange(g, key, [], mmc, 0, copies);
      if redundancy > 1 {
        ScheduleCopies(up, key, r, mmc, PoolClients.Copies(g, redundancy));
      }
    }

    /** The loop, for `count` copies. */
    method ScheduleCopies(up: set<ServerId>, key: Key, r: RequestId, first: ServerId, count: nat)
      requires Valid() && PoolClients.FreeInRange(View()) && r < |requests|
      requires IdsOk(g.numServers, Replicas(g, key, [], first, 0, count).0)
      modifies this
      ensures Valid() && PoolClients.FreeInRange(View())
      ensures View() == PoolClients.ScheduleCopies(g, up, old(View()), r, Replicas(g, key, [], first, 0, count).0)
    {
      hide PoolClients.ScheduleCopies, PoolClients.FreeInRange, Replicas, IdsOk;
      var mmc, skip, index, i := first, [], 0, 0;
      ghost var goal := PoolClients.ScheduleCopies(g, up, View(), r, Replicas(g, key, [], first, 0, count).0);
      assert View().requests == requests && Shaped(g, View());
      hide *;
      PoolClients.OutcomeOf(g, up, View(), r, Replicas(g, key, [], first, 0, count).0);
      while i < count
        invariant Valid() && Shaped(g, View()) && PoolClients.FreeInRange(View()) && i <= count
        invariant View().requests == requests && r < |requests|
        invariant IdsOk(g.numServers, Replicas(g, key, skip, mmc, index, count - i).0)
        invariant PoolClients.Outcome(g, up, View(), r, Replicas(g, key, skip, mmc, index, count - i).0, goal)
        decreases count - i
      {
        mmc, skip, index := NextCopy(up, key, r, mmc, skip, index, count - i, goal);
        i := i + 1;
      }
      PoolClients.OutcomeReached(g, up, View(), r, key, skip, mmc, index, goal);
    }

    /** One turn: the next server not chosen before, and a copy for it; `more` copies are still to come. */
    method NextCopy(up: set<ServerId>, key: Key, r: RequestId, mmc: ServerId, skip: seq<ServerId>, index: nat,
                    ghost more: nat, ghost goal: Pool)
      returns (next: ServerId, chosen: seq<ServerId>, last: nat)
      requires Valid() && PoolClients.FreeInRange(View()) && r < |requests| && more > 0
      requires IdsOk(g.numServers, Replicas(g, key, skip, mmc, index, more).0)
      requires PoolClients.Outcome(g, up, View(), r, Replicas(g, key, skip, mmc, index, more).0, goal)
      modifies this
      ensures Valid() && Shaped(g, View()) && PoolClients.FreeInRange(View())
      ensures View().requests == requests && |requests| >= old(|requests|)
      ensures IdsOk(g.numServers, Replicas(g, key, chosen, next, last, more - 1).0)
      ensures PoolClients.Outcome(g, up, View(), r, Replicas(g, key, chosen, next, last, more - 1).0, goal)
    {
      assert |servers| == g.numServers;
      hide PoolClients.FreeInRange, PoolClients.CopyOne, PoolClients.ScheduleCopies, FindNext, PushUnique, Shaped,
        Replicas;
      hide IdsOk;
      PoolClients.ReplicasStep(g, key, skip, mmc, index, more);
      chosen := PushUnique(skip, mmc);
      next, last := FindNextLoop(g, key, chosen, index);
      PoolClients.CopiesStep(g, up, View(), r, next, Replicas(g, key, chosen, next, last, more - 1).0);
      CopyOne(up, r, next);
    }

    method CopyOne(up: set<ServerId>, r: RequestId, s: ServerId)
      requires Valid() && PoolClients.FreeInRange(View()) && r < |requests| && s < |servers|
      modifies this
      ensures Valid() && PoolClients.FreeInRange(View()) && |requests| >= old(|requests|)
      ensures View() == PoolClients.CopyOne(g, up, old(View()), r, s)
    {
      if !servers[s].status.Failed? {
        var c := CloneRequest(r);
        PoolClients.FreeAfterSchedule(g, up, View(), s, c);
        Schedule(up, s, c);
      }
    }

    /** mmc_pool_find */
    method FindServer(key: Key) returns (mmc: ServerId)
      requires Valid()
      ensures mmc == PoolClients.Home(g, View(), key)
    {
      mmc := g.home(key);
      if servers[mmc].status.Failed? && g.allowFailover {
        var index := 0;
        mmc, index := FindNextLoop(g, key, [], index);
        while servers[mmc].status.Failed? && index < g.maxAttempts
          invariant mmc < |servers|
          invariant PoolClients.Home(g, View(), key)
                    == if mmc in Down(View()) && index < g.maxAttempts then FindUp(g, Down(View()), key, index) else mmc
          decreases g.maxAttempts - index
        {
          mmc, index := FindNextLoop(g, key, [], index);
        }
      }
    }

    // -------------------------------------------------------------------------------------------------------
    // Rounds

    /** mmc_server_failure and what follows from its answer, for the request in a slot. */
    method Fail(up: set<ServerId>, s: ServerId, side: Side)
      requires Valid() && s < |servers|
      modifies this
      ensures Valid() && View() == PoolRound.Fail(g, up, old(View()), s, side)
    {
      SlotInRange(g, View(), s);
      var request := SlotOf(side, servers[s]);
      if ServerFailure(servers[s].status).RetryRequest? && request.Some? {
        SelectRetry(up, s, request.value);
      } else {
        Deactivate(up, s);
      }
    }

    /** mmc_pool_slot_send with the popped send queue, and the server leaving the list if nothing was slotted. */
    method SlotNext(up: set<ServerId>, s: ServerId)
      requires Valid() && s < |servers|
      modifies this
      ensures Valid() && View() == PoolRound.SlotNext(g, up, old(View()), s)
    {
      ghost var p := View();
      SlotInRange(g, p, s);
      NextSendShaped(g, p, s);
      hide PoolModel.Deactivate, PoolModel.Failover, ServerShaped;
      var queue := servers[s].sendqueue;
      if queue == [] || servers[s].status.Connected? || s in up {
        AdvanceSend(s);
      } else {
        assert queue[0] in queue;
        Deactivate(up, s);
        SlotCleared(g, View(), s);
        Update(s, servers[s].(sendreq := None));
        Failover(up, s, queue[0]);
      }
      if servers[s].sendreq.None? {
        sending := Without(sending, s);
      }
    }

    /** mmc_select_retry */
    method SelectRetry(up: set<ServerId>, s: ServerId, r: RequestId)
      requires Valid() && s < |servers| && r < |requests|
      modifies this
      ensures Valid() && View() == PoolRound.SelectRetry(g, up, old(View()), s, r)
    {
      ghost var p := View();
      QueuesShaped(g, p, s, r);
      var v := servers[s];
      servers := servers[s := v.(sendqueue := Without(v.sendqueue, r), readqueue := Without(v.readqueue, r))];
      assert View() == OutOfQueues(p, s, r);
      if v.sendreq == Some(r) {
        SlotNext(up, s);
      }
      LeaveReadSlot(s, r);
      Failover(up, s, r);
    }

    method LeaveReadSlot(s: ServerId, r: RequestId)
      requires Valid() && s < |servers|
      modifies this
      ensures Valid() && View() == OutOfReadSlot(g, old(View()), s, r)
    {
      if servers[s].readreq == Some(r) {
        AdvanceRead(s);
        if servers[s].readreq.None? {
          reading := Without(reading, s);
        }
      }
    }

    /** The do-while loop around mmc_request_send. Returns what is left of the round's reading list. */
    method SendTurn(up: set<ServerId>, toRead: seq<ServerId>, s: ServerId, outs: seq<SendOutcome>)
      returns (left: seq<ServerId>)
      requires Valid() && s < |servers|
      modifies this
      ensures Valid() && (View(), left) == PoolRound.SendTurn(g, up, old(View()), toRead, s, outs)
    {
      hide PoolRound.NextSend, PoolRound.Fail, PushUnique, Without;
      left := toRead;
      var k := 0;
      while servers[s].sendreq.Some?
        invariant Valid() && s < |servers| && k <= |outs|
        invariant PoolRound.SendTurn(g, up, View(), left, s, outs[k..])
                  == PoolRound.SendTurn(g, up, old(View()), toRead, s, outs)
        decreases |outs| - k
      {
        SlotInRange(g, View(), s);
        if k == |outs| || outs[k].WouldBlock? {
          sending := PushUnique(sending, s);
          return;
        }
        if outs[k].Broken? {
          var hard := ServerFailure(servers[s].status).HardFailure?;
          Fail(up, s, SendSide);
          if hard {
            left := Without(left, s);
          }
          return;
        }
        var r, n := servers[s].sendreq.value, outs[k].n;
        WriteShaped(g, View(), s, r, n);
        Write(s, r, n);
        if requests[r].idx < |requests[r].sendbuf| {
          sending := PushUnique(sending, s);
          return;
        }
        NextSendShaped(g, View(), s);
        AdvanceSend(s);
        assert outs[k..][1..] == outs[k + 1..];
        k := k + 1;
      }
    }

    /** mmc_request_send, when send() takes `n` bytes. */
    method Write(s: ServerId, r: RequestId, n: nat)
      requires s < |servers| && r < |requests|
      modifies this
      ensures View() == PoolRound.Write(old(View()), s, r, n)
    {
      var q := requests[r];
      var bytes := Written(q, n);
      requests := requests[r := q.(idx := q.idx + bytes)];
      if q.idx == 0 && bytes > 0 {
        servers := servers[s := servers[s].(wire := servers[s].wire + [r])];
      }
    }

    /** mmc_pool_slot_send with the popped send queue, on a connected server. */
    method AdvanceSend(s: ServerId)
      requires s < |servers| && IdsOk(|requests|, servers[s].sendqueue)
      modifies this
      ensures View() == NextSend(old(View()), s)
    {
      var v := servers[s];
      if v.sendqueue == [] {
        servers := servers[s := v.(sendreq := None)];
      } else {
        var r := v.sendqueue[0];
        assert r in v.sendqueue;
        requests := requests[r := requests[r].(io := Some(s))];
        servers := servers[s := v.(status := Connected, sendreq := Some(r), sendqueue := v.sendqueue[1..])];
      }
    }

    /** mmc_server_disconnect before the request in the send slot is complete, and the slot moving on. */
    method DropStream(up: set<ServerId>, s: ServerId)
      requires Valid() && s < |servers|
      modifies this
      ensures Valid() && View() == PoolRound.DropStream(g, up, old(View()), s)
    {
      ghost var p := View();
      SlotInRange(g, p, s);
      var v := servers[s];
      servers := servers[s := v.(status := Disconnected, wire := [])];
      assert ServerShaped(|requests|, v);
      assert ReadLine(servers[s]) == ReadLine(v) && SendLine(servers[s]) == SendLine(v);
      SlotNext(up, s);
    }

    /** What a parser's DONE sets off. Returns the pointer that was released, NULL included. */
    method ReadDone(up: set<ServerId>, s: ServerId) returns (done: Option<RequestId>)
      requires Valid() && s < |servers| && servers[s].readreq.Some? && servers[s].wire != []
      modifies this
      ensures Valid() && (View(), done) == PoolRound.ReadDone(g, up, old(View()), s)
    {
      ghost var p := View();
      var v := servers[s];
      log := log + [(v.readreq.value, v.wire[0])];
      if v.sendreq == v.readreq {
        DropStream(up, s);
      } else {
        assert ServerShaped(|requests|, v);
        servers := servers[s := v.(wire := v.wire[1..])];
        assert ReadLine(servers[s]) == ReadLine(v) && SendLine(servers[s]) == SendLine(v);
      }
      done := servers[s].readreq;
      if done.Some? {
        free := PushUnique(free, done.value);
      }
      assert Valid();
      AdvanceRead(s);
    }

    method AdvanceRead(s: ServerId)
      requires Valid() && s < |servers|
      modifies `servers
      ensures Valid() && View() == NextRead(g, old(View()), s)
    {
      ghost var p := View();
      var v := servers[s];
      if v.readqueue == [] {
        servers := servers[s := v.(readreq := None)];
      } else {
        servers := servers[s := v.(readreq := Some(v.readqueue[0]), readqueue := v.readqueue[1..])];
      }
      assert View() == NextRead(g, p, s);
    }

    /** The do-while loop around the request's parser. */
    method ReadTurn(up: set<ServerId>, s: ServerId, outs: seq<ParseOutcome>)
      requires Valid() && s < |servers|
      modifies this
      ensures Valid() && View() == PoolRound.ReadTurn(g, up, old(View()), s, outs)
    {
      var k := 0;
      while servers[s].readreq.Some?
        invariant Valid() && s < |servers| && k <= |outs|
        invariant PoolRound.ReadTurn(g, up, View(), s, outs[k..]) == PoolRound.ReadTurn(g, up, old(View()), s, outs)
        decreases |outs| - k
      {
        if k == |outs| || outs[k] == More(false) || (outs[k].Reply? && servers[s].wire == []) {
          reading := PushUnique(reading, s);
          return;
        }
        if outs[k].Malformed? || outs[k].More? {
          Fail(up, s, ReadSide);
          return;
        }
        if outs[k].Reply? {
          var _ := ReadDone(up, s);
        }
        assert outs[k..][1..] == outs[k + 1..];
        k := k + 1;
      }
    }

    /** One of the two loops that run when select() found nothing. */
    method DropUnready(up: set<ServerId>, side: Side, ready: set<ServerId>, list: seq<ServerId>, other: seq<ServerId>)
      returns (kept: seq<ServerId>, rest: seq<ServerId>)
      requires Valid() && IdsOk(|servers|, list)
      modifies this
      ensures Valid() && (View(), kept, rest) == PoolRound.DropUnready(g, up, old(View()), side, ready, [], list, other)
    {
      kept, rest := [], other;
      var todo := list;
      while todo != []
        invariant Valid() && IdsOk(|servers|, todo) && |servers| == old(|servers|)
        invariant PoolRound.DropUnready(g, up, View(), side, ready, kept, todo, rest)
                  == PoolRound.DropUnready(g, up, old(View()), side, ready, [], list, other)
        decreases |todo|
      {
        var s := todo[0];
        assert s in todo && forall x :: x in todo[1..] ==> x in todo;
        if s in ready {
          kept := kept + [s];
        } else {
          Fail(up, s, side);
          rest := Without(rest, s);
        }
        todo := todo[1..];
      }
    }

    /** mmc_pool_select_impl up to the servers' turns to read. */
    method BeforeRead(e: Round) returns (toRead: seq<ServerId>)
      requires Valid()
      modifies this
      ensures Valid() && (View(), toRead) == PoolRound.BeforeRead(g, e, old(View())) && IdsOk(|servers|, toRead)
    {
      hide PoolRound.SendTurn, PoolRound.DropUnready, ServerShaped;
      var toSend := sending;
      toRead := reading;
      sending, reading := [], [];
      if e.nothingReady {
        toSend, toRead := DropUnready(e.up, SendSide, e.writable, toSend, toRead);
        assert IdsOk(|servers|, toRead);
        toRead, toSend := DropUnready(e.up, ReadSide, e.readable, toRead, toSend);
      }
      ghost var p1, left1 := View(), toRead;
      var list := toSend;
      while list != []
        invariant Valid() && IdsOk(|servers|, list) && IsWithin(toRead, left1) && |servers| == |p1.servers|
        invariant SendPhase(g, e, View(), list, toRead) == SendPhase(g, e, p1, toSend, left1)
        decreases |list|
      {
        var s := list[0];
        assert s in list && forall x :: x in list[1..] ==> x in list;
        if servers[s].sendreq.Some? {
          if s in e.writable {
            toRead := SendTurn(e.up, toRead, s, Script(e.sends, s));
          } else {
            sending := PushUnique(sending, s);
          }
        }
        list := list[1..];
      }
    }

    /** mmc_pool_select_impl */
    method Select(e: Round)
      requires Valid()
      modifies this
      ensures Valid() && View() == PoolRound.Select(g, e, old(View()))
    {
      var list := BeforeRead(e);
      ghost var p2, toRead := View(), list;
      while list != []
        invariant Valid() && IdsOk(|servers|, list) && |servers| == |p2.servers|
        invariant ReadPhase(g, e, View(), list) == ReadPhase(g, e, p2, toRead)
        decreases |list|
      {
        var s := list[0];
        assert s in list && forall x :: x in list[1..] ==> x in list;
        if servers[s].readreq.Some? {
          if s in e.readable {
            ReadTurn(e.up, s, Script(e.parses, s));
          } else {
            reading := PushUnique(reading, s);
          }
        }
        list := list[1..];
      }
    }

    /** mmc_pool_run, as far as the rounds go. Once no server is listed, no server holds a request. */
    method Run(rounds: seq<Round>) returns (used: nat)
      requires Valid()
      modifies this
      ensures Valid() && used <= |rounds| && View() == Rounds(g, rounds[..used], old(View()))
      ensures forall i | 0 <= i < used ::
                Rounds(g, rounds[..i], old(View())).sending != [] || Rounds(g, rounds[..i], old(View())).reading != []
      ensures used == |rounds| || (reading == [] && sending == [])
      ensures View() == PoolRuns.Run(g, rounds, old(View()))
      ensures old(Settled(g, View()) && RunKept(g, rounds, View()))
              ==> Settled(g, View()) && Accounted(g, old(View()), View())
    {
      ghost var p := View();
      used := 0;
      RanNone(g, rounds, p);
      hide *;
      while used < |rounds| && (reading != [] || sending != [])
        invariant used <= |rounds| && Valid() && Shaped(g, p)
        invariant Ran(g, rounds, p, used, View())
      {
        RanOn(g, rounds, p, used, View());
        Select(rounds[used]);
        used := used + 1;
      }
      RanAll(g, rounds, p, used, View());
      if Settled(g, p) && RunKept(g, rounds, p) { RunOk(g, rounds, p); }
    }
  }
}
