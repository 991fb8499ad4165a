/** Retrying a request (mmc_select_retry): it is taken out of its server's pipeline and failed over. This happens on
    streams that are closed, so that nothing can be said about what is on the wire, but the lines stay aligned. */
module PoolRetry {
  import opened Basics
  import opened Wrappers
  import opened Sequences
  import opened Routing
  import opened PoolModel
  import opened PoolInvariant
  import opened PoolFailover
  import opened PoolRound
  import opened PoolLanding

  /** A slot and its queue: the request leaves the queue, and the slot if it is there, which then takes the next. */
  function Removed(slot: Option<RequestId>, queue: seq<RequestId>, r: RequestId): (Option<RequestId>, seq<RequestId>) {
    var rest := Without(queue, r);
    if slot != Some(r) then (slot, rest)
    else if rest == [] then (None, [])
    else (Some(rest[0]), rest[1..])
  }

  /** The send and the read side after the request is gone, before its failover handler is called. */
  function Retried(v: Server, r: RequestId): Server {
    var (sendreq, sendqueue) := Removed(v.sendreq, v.sendqueue, r);
    var (readreq, readqueue) := Removed(v.readreq, v.readqueue, r);
    v.(sendreq := sendreq, sendqueue := sendqueue, readreq := readreq, readqueue := readqueue)
  }

  lemma {:induction false} WithoutConcat(a: seq<RequestId>, b: seq<RequestId>, r: RequestId)
    ensures Without(a + b, r) == Without(a, r) + Without(b, r)
    decreases |a|
  {
    if a == [] {
      assert a + b == b;
    } else {
      assert (a + b)[0] == a[0] && (a + b)[1..] == a[1..] + b;
      WithoutConcat(a[1..], b, r);
    }
  }

  lemma RemovedLine(slot: Option<RequestId>, queue: seq<RequestId>, r: RequestId)
    requires NoDuplicates(Listed(slot) + queue) && (slot.None? ==> queue == [])
    ensures var (slot', queue') := Removed(slot, queue, r);
            Listed(slot') + queue' == Without(Listed(slot) + queue, r) && (slot'.None? ==> queue' == [])
  {
    WithoutConcat(Listed(slot), queue, r);
    if slot.Some? { assert Without([slot.value], r) == if slot.value == r then [] else [slot.value]; }
  }

  /** Alignment survives: exactly the retried request is gone from both lines, the others keep their order, and what
      is still to be sent is the tail end of what is still to be read. */
  lemma RetryAligned(v: Server, r: RequestId)
    requires LinesAligned(v)
    ensures LinesAligned(Retried(v, r))
    ensures ReadLine(Retried(v, r)) == Without(ReadLine(v), r) && SendLine(Retried(v, r)) == Without(SendLine(v), r)
  {
    var v', send, read := Retried(v, r), SendLine(v), ReadLine(v);
    SuffixUnique(send, read);
    RemovedLine(v.sendreq, v.sendqueue, r);
    RemovedLine(v.readreq, v.readqueue, r);
    hide IsSuffix, NoDuplicates, Without, Removed;
    SuffixWithout(send, read, r);
  }

  lemma SuffixWithout(t: seq<RequestId>, s: seq<RequestId>, r: RequestId)
    requires IsSuffix(t, s)
    ensures IsSuffix(Without(t, r), Without(s, r))
  {
    var before := s[..|s| - |t|];
    assert s == before + t;
    WithoutConcat(before, t, r);
    hide Without;
    var a, b := Without(before, r), Without(t, r);
    assert (a + b)[|a|..] == b;
  }

  // ---------------------------------------------------------------------------------------------------------
  // Alignment through any cascade

  /** Every pipeline is aligned, and every request is in one place only. */
  ghost predicate AlignOk(g: Config, p: Pool) {
    Shaped(g, p) && Exclusive(p) && forall s :: 0 <= s < |p.servers| ==> LinesAligned(p.servers[s])
  }

  /** The requests `ids` found a place, and no other request lost its own. */
  ghost predicate Placed(p: Pool, p': Pool, ids: seq<RequestId>) {
    forall x :: Tracked(p', x) <==> Tracked(p, x) || x in ids
  }

  lemma EnqueueLines(p: Pool, s: ServerId, r: RequestId)
    requires s < |p.servers| && r < |p.requests| && LinesAligned(p.servers[s]) && r !in ReadLine(p.servers[s])
    ensures var p' := Enqueue(p, s, r);
            && p'.servers == p.servers[s := p'.servers[s]] && p'.free == p.free
            && LinesAligned(p'.servers[s]) && ReadLine(p'.servers[s]) == ReadLine(p.servers[s]) + [r]
  {
    EnqueueServer(p, s, r);
    var v, v' := p.servers[s], Enqueue(p, s, r).servers[s];
    assert Enqueue(p, s, r).free == p.free;
    hide Enqueue, PushUnique, LinesAligned;
    assert Appended(v, v', r);
    AppendedLinesAligned(v, v', r);
  }

  lemma EnqueueAligned(g: Config, p: Pool, s: ServerId, r: RequestId)
    requires AlignOk(g, p) && s < |p.servers| && r < |p.requests| && !Tracked(p, r)
    ensures AlignOk(g, Enqueue(p, s, r)) && Placed(p, Enqueue(p, s, r), [r])
  {
    EnqueueShaped(g, p, s, r);
    var p' := Enqueue(p, s, r);
    assert LinesAligned(p.servers[s]) && Exclusive(p);
    assert r !in ReadLine(p.servers[s]) by { assert !On(p, s, r); }
    hide Enqueue, Shaped, Exclusive, Tracked, ReadLine, LinesAligned, Placed, AlignOk;
    EnqueueLines(p, s, r);
    LinePlaced(p, p', s, r);
    OneAligned(g, p, p', s);
  }

  lemma OneAligned(g: Config, p: Pool, p': Pool, s: ServerId)
    requires AlignOk(g, p) && s < |p.servers| == |p'.servers| && p'.servers == p.servers[s := p'.servers[s]]
    requires Shaped(g, p') && Exclusive(p') && LinesAligned(p'.servers[s])
    ensures AlignOk(g, p')
  {
    hide Shaped, Exclusive, LinesAligned;
  }

  lemma LinePlaced(p: Pool, p': Pool, s: ServerId, r: RequestId)
    requires Exclusive(p) && s < |p.servers| == |p'.servers| && !Tracked(p, r)
    requires p'.servers == p.servers[s := p'.servers[s]] && p'.free == p.free
    requires ReadLine(p'.servers[s]) == ReadLine(p.servers[s]) + [r]
    ensures Exclusive(p') && Placed(p, p', [r])
  {
    hide Exclusive, Tracked, NoDuplicates;
    hide ReadLine;
    assert forall t, x :: On(p', t, x) <==> On(p, t, x) || (t == s && x == r);
    PlaceOne(p, p', s, r);
  }

  lemma ClearAligned(g: Config, p: Pool, s: ServerId)
    requires AlignOk(g, p) && s < |p.servers|
    ensures AlignOk(g, Clear(p, s))
    ensures forall x :: Tracked(p, x) <==> Tracked(Clear(p, s), x) || On(p, s, x)
    ensures forall x :: On(p, s, x) ==> !Tracked(Clear(p, s), x)
  {
    EvictedInRange(g, p, s);
    ClearPlaces(p, s);
    var v := Clear(p, s).servers[s];
    assert ReadLine(v) == [] && SendLine(v) == [];
  }

  lemma ReleaseAligned(g: Config, p: Pool, r: RequestId)
    requires AlignOk(g, p) && !Tracked(p, r)
    ensures AlignOk(g, Release(p, r)) && Placed(p, Release(p, r), [r])
  {
    assert forall t, x :: On(Release(p, r), t, x) <==> On(p, t, x);
  }

  /** A change to a request's own record. */
  lemma RecordAligned(g: Config, p: Pool, r: RequestId, q: Request)
    requires AlignOk(g, p) && r < |p.requests|
    ensures AlignOk(g, WithRequest(p, r, q)) && Placed(p, WithRequest(p, r, q), [])
  {
    assert forall t, x :: On(WithRequest(p, r, q), t, x) <==> On(p, t, x);
  }

  lemma PlacedTrans(p: Pool, p1: Pool, p2: Pool, a: seq<RequestId>, b: seq<RequestId>)
    requires Placed(p, p1, a) && Placed(p1, p2, b)
    ensures Placed(p, p2, a + b)
  {
    hide Tracked;
  }

  /** A refused server hands on what it holds, and its send slot is empty already. */
  lemma SlotIsClear(g: Config, up: set<ServerId>, p: Pool, s: ServerId)
    requires Shaped(g, p) && s < |p.servers|
    ensures Shaped(g, Deactivate(g, up, p, s))
    ensures var p' := Deactivate(g, up, p, s); WithServer(p', s, p'.servers[s].(sendreq := None)) == p'
  {
    DownAfterDeactivate(g, up, p, s, s);
    var p' := Deactivate(g, up, p, s);
    assert p'.servers[s := p'.servers[s]] == p'.servers;
  }

  lemma {:induction false} ScheduleAligned(g: Config, up: set<ServerId>, p: Pool, s: ServerId, r: RequestId)
    requires AlignOk(g, p) && s < |p.servers| && r < |p.requests| && !Tracked(p, r)
    ensures AlignOk(g, Schedule(g, up, p, s, r)) && Placed(p, Schedule(g, up, p, s, r), [r])
    decreases Budget(g, p.requests), 3, 0
  {
    hide Exclusive, Tracked, LinesAligned, Enqueue, On;
    if p.servers[s].status.Failed? {
      FailoverAligned(g, up, p, s, r);
    } else if NeedsConnect(p, s) && s !in up {
      BudgetUpdate(g, p.requests, r, p.requests[r].(idx := 0));
      RecordAligned(g, p, r, p.requests[r].(idx := 0));
      var p0 := Rewind(p, r);
      DeactivateAligned(g, up, p0, s);
      var p1 := Deactivate(g, up, p0, s);
      SlotIsClear(g, up, p0, s);
      hide AlignOk, Placed, Rewind, Deactivate;
      PlacedNot(p, p0, p1, r);
      FailoverAligned(g, up, p1, s, r);
      PlacedTrans(p, p1, Schedule(g, up, p, s, r), [], [r]);
      assert [] + [r] == [r];
    } else {
      EnqueueAligned(g, p, s, r);
    }
  }

  lemma PlacedNot(p: Pool, p0: Pool, p1: Pool, r: RequestId)
    requires !Tracked(p, r) && Placed(p, p0, []) && Placed(p0, p1, [])
    ensures !Tracked(p1, r) && Placed(p, p1, [])
  {
    hide Tracked;
  }

  lemma {:induction false} FailoverAligned(g: Config, up: set<ServerId>, p: Pool, s: ServerId, r: RequestId)
    requires AlignOk(g, p) && s < |p.servers| && r < |p.requests| && !Tracked(p, r)
    ensures AlignOk(g, Failover(g, up, p, s, r)) && Placed(p, Failover(g, up, p, s, r), [r])
    decreases Budget(g, p.requests), 0, 0
  {
    hide Exclusive, Tracked, LinesAligned, On;
    var q := p.requests[r];
    if CanFailOver(g, q) {
      var (t, skip, index) := NextServer(g, Down(p), q.key, s, q.failedServers, q.failedIndex);
      var q' := q.(failedServers := skip, failedIndex := index);
      BudgetUpdate(g, p.requests, r, q');
      RecordAligned(g, p, r, q');
      var p1 := WithRequest(p, r, q');
      ScheduleAligned(g, up, p1, t, r);
      PlacedTrans(p, p1, Failover(g, up, p, s, r), [], [r]);
      assert [] + [r] == [r];
    } else {
      ReleaseAligned(g, p, r);
    }
  }

  lemma {:induction false} DeactivateAligned(g: Config, up: set<ServerId>, p: Pool, s: ServerId)
    requires AlignOk(g, p) && s < |p.servers|
    ensures AlignOk(g, Deactivate(g, up, p, s)) && Placed(p, Deactivate(g, up, p, s), [])
    decreases Budget(g, p.requests), 2, 0
  {
    ClearAligned(g, p, s);
    var ids := Evicted(p.servers[s]);
    EvictedLine(p.servers[s]);
    EvictedInRange(g, p, s);
    FailoverAllAligned(g, up, Clear(p, s), s, ids);
    assert forall x :: x in ids <==> On(p, s, x);
    hide Tracked, On, AlignOk;
  }

  lemma EvictedLine(v: Server)
    requires LinesAligned(v)
    ensures NoDuplicates(Evicted(v)) && forall x :: x in Evicted(v) <==> x in ReadLine(v)
  {
    QueueUnique(v);
    hide IsSuffix;
    assert forall x :: x in Evicted(v) <==> x in ReadLine(v);
  }

  lemma QueueUnique(v: Server)
    requires LinesAligned(v)
    ensures NoDuplicates(v.readqueue)
  {
    forall i, j | 0 <= i < j < |v.readqueue| ensures v.readqueue[i] != v.readqueue[j] {
      var k := |Listed(v.readreq)|;
      assert ReadLine(v)[k + i] == v.readqueue[i] && ReadLine(v)[k + j] == v.readqueue[j];
    }
  }

  lemma {:induction false} FailoverAllAligned(g: Config, up: set<ServerId>, p: Pool, s: ServerId, ids: seq<RequestId>)
    requires AlignOk(g, p) && s < |p.servers| && IdsOk(|p.requests|, ids)
    requires NoDuplicates(ids) && forall x :: x in ids ==> !Tracked(p, x)
    ensures AlignOk(g, FailoverAll(g, up, p, s, ids)) && Placed(p, FailoverAll(g, up, p, s, ids), ids)
    decreases Budget(g, p.requests), 1, |ids|
  {
    hide Exclusive, Tracked, LinesAligned, On;
    if ids != [] {
      assert ids[0] in ids && forall x :: x in ids[1..] ==> x in ids && x != ids[0];
      FailoverAligned(g, up, p, s, ids[0]);
      var p1 := Failover(g, up, p, s, ids[0]);
      assert NoDuplicates(ids[1..]);
      hide AlignOk, NoDuplicates;
      assert Shaped(g, p1) && |p1.servers| == |p.servers|;
      FailoverAllAligned(g, up, p1, s, ids[1..]);
      PlacedTrans(p, p1, FailoverAll(g, up, p, s, ids), [ids[0]], ids[1..]);
      assert [ids[0]] + ids[1..] == ids;
    }
  }

  // ---------------------------------------------------------------------------------------------------------
  // The retry

  /** The request sits in the send slot, another one is to take its place, and the closed stream cannot be opened. */
  predicate RetryRefused(up: set<ServerId>, p: Pool, s: ServerId, r: RequestId)
    requires s < |p.servers|
  {
    var v := p.servers[s];
    v.sendreq == Some(r) && Without(v.sendqueue, r) != [] && !v.status.Connected? && s !in up
  }

  /** The pool before the request's failover: its server's lines without it. */
  ghost predicate TakenOut(p: Pool, p': Pool, s: ServerId, r: RequestId) {
    && s < |p.servers| == |p'.servers| && p'.servers == p.servers[s := p'.servers[s]] && p'.free == p.free
    && var v := Retried(p.servers[s], r);
       p'.servers[s].sendreq == v.sendreq && p'.servers[s].sendqueue == v.sendqueue
       && p'.servers[s].readreq == v.readreq && p'.servers[s].readqueue == v.readqueue
  }

  /** The send slot takes the next request from its queue, and the read side is untouched. */
  ghost predicate SendMoved(p: Pool, p': Pool, s: ServerId) {
    && s < |p.servers| == |p'.servers| && p'.servers == p.servers[s := p'.servers[s]] && p'.free == p.free
    && var (v, v') := (p.servers[s], p'.servers[s]);
       && v'.readreq == v.readreq && v'.readqueue == v.readqueue
       && v'.sendreq == (if v.sendqueue == [] then None else Some(v.sendqueue[0]))
       && v'.sendqueue == (if v.sendqueue == [] then [] else v.sendqueue[1..])
  }

  /** The same for the read slot, if the request is in it. */
  ghost predicate ReadMoved(p: Pool, p': Pool, s: ServerId, r: RequestId) {
    && s < |p.servers| == |p'.servers| && p'.servers == p.servers[s := p'.servers[s]] && p'.free == p.free
    && var (v, v') := (p.servers[s], p'.servers[s]);
       && v'.sendreq == v.sendreq && v'.sendqueue == v.sendqueue
       && (if v.readreq != Some(r) then v' == v
           else if v.readqueue == [] then v'.readreq == None && v'.readqueue == []
           else v'.readreq == Some(v.readqueue[0]) && v'.readqueue == v.readqueue[1..])
  }

  /** Where the slot moves on without losing the server. */
  lemma SlotNextMoves(g: Config, up: set<ServerId>, p: Pool, s: ServerId)
    requires Shaped(g, p) && s < |p.servers|
    requires p.servers[s].sendqueue == [] || p.servers[s].status.Connected? || s in up
    ensures SendMoved(p, SlotNext(g, up, p, s), s)
  {
    SlotInRange(g, p, s);
    assert p.servers[s].sendqueue != [] ==> p.servers[s].sendqueue[0] in p.servers[s].sendqueue;
    hide Shaped, Without;
  }

  lemma ReadSlotMoves(g: Config, p: Pool, s: ServerId, r: RequestId)
    requires Shaped(g, p) && s < |p.servers|
    ensures ReadMoved(p, OutOfReadSlot(g, p, s, r), s, r)
  {
    hide Shaped, Without;
    assert p.servers[s := p.servers[s]] == p.servers;
  }

  lemma BothMoved(p: Pool, p2: Pool, p3: Pool, s: ServerId, r: RequestId)
    requires s < |p.servers| && ReadMoved(p2, p3, s, r)
    requires if p.servers[s].sendreq == Some(r) then SendMoved(OutOfQueues(p, s, r), p2, s)
             else p2 == OutOfQueues(p, s, r)
    ensures TakenOut(p, p3, s, r)
  {
    hide Without;
  }

  lemma RetryTakesOut(g: Config, up: set<ServerId>, p: Pool, s: ServerId, r: RequestId) returns (p3: Pool)
    requires Shaped(g, p) && s < |p.servers| && r < |p.requests| && !RetryRefused(up, p, s, r)
    ensures Shaped(g, p3) && |p3.requests| == |p.requests| && TakenOut(p, p3, s, r)
    ensures SelectRetry(g, up, p, s, r) == Failover(g, up, p3, s, r)
  {
    QueuesShaped(g, p, s, r);
    var p1 := OutOfQueues(p, s, r);
    hide Without, Failover, Shaped, SlotNext, OutOfReadSlot, SendMoved, ReadMoved, TakenOut;
    if p.servers[s].sendreq == Some(r) { SlotNextMoves(g, up, p1, s); }
    var p2 := if p.servers[s].sendreq == Some(r) then SlotNext(g, up, p1, s) else p1;
    p3 := OutOfReadSlot(g, p2, s, r);
    assert s < |p2.servers| by { SameSize(g, p1, p2); }
    ReadSlotMoves(g, p2, s, r);
    BothMoved(p, p2, p3, s, r);
  }

  lemma SameSize(g: Config, p: Pool, p': Pool)
    requires Shaped(g, p) && Shaped(g, p')
    ensures |p'.servers| == |p.servers|
  {
  }

  lemma TakenOutAligned(g: Config, p: Pool, p': Pool, s: ServerId, r: RequestId)
    requires AlignOk(g, p) && TakenOut(p, p', s, r) && On(p, s, r) && Shaped(g, p')
    ensures AlignOk(g, p') && forall x :: Tracked(p', x) <==> Tracked(p, x) && x != r
  {
    var v, v' := p.servers[s], p'.servers[s];
    RetryAligned(v, r);
    assert ReadLine(v') == Without(ReadLine(v), r) && SendLine(v') == Without(SendLine(v), r);
    assert LinesAligned(v');
    hide LinesAligned, Retried, ReadLine, SendLine, Shaped;
    assert forall t, x :: On(p', t, x) <==> On(p, t, x) && !(t == s && x == r);
    TakeOne(p, p', s, r);
  }

  lemma TakeOne(p: Pool, p': Pool, s: ServerId, r: RequestId)
    requires Exclusive(p) && p'.free == p.free && On(p, s, r)
    requires forall t, x :: On(p', t, x) <==> On(p, t, x) && !(t == s && x == r)
    ensures Exclusive(p') && forall x :: Tracked(p', x) <==> Tracked(p, x) && x != r
  {
    forall x ensures Tracked(p', x) <==> Tracked(p, x) && x != r {
      if Tracked(p, x) && x !in p.free && x != r {
        var t :| On(p, t, x);
        assert On(p', t, x);
      }
    }
  }

  /** After a retry every pipeline is aligned, and every request, the retried one included, is still in exactly one
      place: on one server, or in the free list. */
  lemma RetryOk(g: Config, up: set<ServerId>, p: Pool, s: ServerId, r: RequestId)
    requires AlignOk(g, p) && s < |p.servers| && r < |p.requests| && On(p, s, r) && !RetryRefused(up, p, s, r)
    ensures var p' := SelectRetry(g, up, p, s, r);
            AlignOk(g, p') && forall x :: Tracked(p', x) <==> Tracked(p, x)
  {
    assert Tracked(p, r) && Shaped(g, p);
    hide Tracked, SelectRetry, Failover, On, AlignOk, Shaped, TakenOut;
    var p3 := RetryTakesOut(g, up, p, s, r);
    TakenOutAligned(g, p, p3, s, r);
    assert s < |p3.servers| by { SameSize(g, p, p3); }
    FailoverAligned(g, up, p3, s, r);
    assert r in [r];
  }
}
