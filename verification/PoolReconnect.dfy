/** What happens when a reply ends before its request is fully sent, more requests are waiting, and the server does not
    accept the new connection. */
module PoolReconnect {
  import opened Basics
  import opened Wrappers
  import opened Sequences
  import opened Routing
  import opened PoolModel
  import opened PoolInvariant
  import opened PoolFailover
  import opened PoolRound
  import opened PoolSteps
  import opened PoolTurns
  import opened PoolLanding

  // ---------------------------------------------------------------------------------------------------------
  // What the code releases

  lemma DroppedIsDown(g: Config, up: set<ServerId>, p: Pool, s: ServerId)
    requires Shaped(g, p) && s < |p.servers| && LostReconnect(up, p, s)
    ensures IsDown(DropStream(g, up, p, s), s)
  {
    SlotInRange(g, p, s);
    var v := p.servers[s];
    var p1 := WithServer(p, s, v.(status := Disconnected, wire := []));
    assert ServerShaped(|p.requests|, v);
    assert ReadLine(p1.servers[s]) == ReadLine(v) && SendLine(p1.servers[s]) == SendLine(v);
    assert v.sendqueue[0] in v.sendqueue;
    DownAfterDeactivate(g, up, p1, s, s);
    var p2 := Deactivate(g, up, p1, s);
    assert WithServer(p2, s, p2.servers[s].(sendreq := None)) == p2;
    DownAfterFailover(g, up, p2, s, v.sendqueue[0], s);
  }

  /** Exactly when a completed request is released. When an early reply meets a refused reconnect with more to send,
      the server goes down first, so the pointer released is NULL. */
  lemma ReleaseExact(g: Config, up: set<ServerId>, p: Pool, s: ServerId)
    requires Shaped(g, p) && s < |p.servers| && p.servers[s].readreq.Some? && p.servers[s].wire != []
    ensures ReadDone(g, up, p, s).1 == p.servers[s].readreq <==> !LostReconnect(up, p, s)
    ensures LostReconnect(up, p, s) ==> ReadDone(g, up, p, s).1 == None && IsDown(ReadDone(g, up, p, s).0, s)
  {
    var v := p.servers[s];
    if LostReconnect(up, p, s) {
      DroppedIsDown(g, up, p.(log := p.log + [(v.readreq.value, v.wire[0])]), s);
    } else if v.sendreq == v.readreq {
      DroppedFields(g, up, p, s);
    }
  }

  // ---------------------------------------------------------------------------------------------------------
  // Several requests in a row

  /** Lines only grow at their ends. */
  ghost predicate Grew(v: Server, v': Server) {
    && SendLine(v) <= SendLine(v') && ReadLine(v) <= ReadLine(v')
    && (v.sendreq.Some? ==> v'.sendreq == v.sendreq) && (v.readreq.Some? ==> v'.readreq == v.readreq)
    && (forall x :: x in v.sendqueue ==> x in v'.sendqueue) && (forall x :: x in v.readqueue ==> x in v'.readqueue)
  }

  /** Failovers of `ids` touched nothing else. */
  ghost predicate Settling(up: set<ServerId>, p: Pool, p': Pool, ids: seq<RequestId>) {
    && SameGround(up, p, p') && |p'.requests| == |p.requests|
    && (forall x :: 0 <= x < |p.requests| && x !in ids ==> p'.requests[x] == p.requests[x])
    && (forall x :: x in p.free ==> x in p'.free)
    && (forall t :: 0 <= t < |p.servers| && Usable(up, p, t) ==> Grew(p.servers[t], p'.servers[t]))
    && (forall t :: 0 <= t < |p.servers| && p.servers[t] == DownServer ==> p'.servers[t] == DownServer)
  }

  lemma GrewAppended(v: Server, v': Server, r: RequestId)
    requires Appended(v, v', r) && TidyServer(v)
    ensures Grew(v, v') && r in ReadLine(v')
  {
  }

  lemma LandedSettles(g: Config, up: set<ServerId>, p: Pool, p': Pool, r: RequestId, l: Landing)
    requires Tidy(up, p) && Landed(g, up, p, p', r, l) && SameGround(up, p, p')
    ensures Settling(up, p, p', [r])
    ensures l.Lands? ==> On(p', l.server, r)
    ensures l.Nowhere? ==> r in p'.free
  {
    hide Tidy, Usable, Appended, Grew, PushUnique;
    forall t | 0 <= t < |p.servers| && Usable(up, p, t) ensures Grew(p.servers[t], p'.servers[t]) {
      if l.Lands? && l.server == t {
        AtTidy(up, p, t);
        GrewAppended(p.servers[t], p'.servers[t], r);
      } else {
        GrewSame(p.servers[t]);
      }
    }
    if l.Lands? {
      AtTidy(up, p, l.server);
      GrewAppended(p.servers[l.server], p'.servers[l.server], r);
    }
    DownNotUsable(up, p);
  }

  lemma AtTidy(up: set<ServerId>, p: Pool, t: ServerId)
    requires Tidy(up, p) && t < |p.servers|
    ensures TidyServer(p.servers[t])
    ensures !Usable(up, p, t) ==> ReadLine(p.servers[t]) == [] && SendLine(p.servers[t]) == []
  {
  }

  lemma GrewSame(v: Server)
    ensures Grew(v, v)
  {
  }

  lemma DownNotUsable(up: set<ServerId>, p: Pool)
    ensures forall t :: 0 <= t < |p.servers| && p.servers[t] == DownServer ==> !Usable(up, p, t)
  {
  }

  lemma SettlingTrans(up: set<ServerId>, p: Pool, p1: Pool, p2: Pool, a: seq<RequestId>, b: seq<RequestId>)
    requires Settling(up, p, p1, a) && Settling(up, p1, p2, b)
    ensures Settling(up, p, p2, a + b)
  {
    hide Tidy, Usable, Grew;
    forall t | 0 <= t < |p.servers| && Usable(up, p, t) ensures Grew(p.servers[t], p2.servers[t]) {
      assert t in Usables(up, p1);
      GrewTrans(p.servers[t], p1.servers[t], p2.servers[t]);
    }
  }

  lemma GrewTrans(a: Server, b: Server, c: Server)
    requires Grew(a, b) && Grew(b, c)
    ensures Grew(a, c)
  {
  }

  lemma {:induction false} AllSettle(g: Config, up: set<ServerId>, p: Pool, s: ServerId, ids: seq<RequestId>)
    requires Shaped(g, p) && Tidy(up, p) && s < |p.servers| && IdsOk(|p.requests|, ids)
    ensures Settling(up, p, FailoverAll(g, up, p, s, ids), ids)
    decreases |ids|
  {
    if ids == [] {
      forall t | 0 <= t < |p.servers| ensures Grew(p.servers[t], p.servers[t]) { GrewSame(p.servers[t]); }
    } else {
      assert ids[0] in ids && forall x :: x in ids[1..] ==> x in ids;
      FailoverLands(g, up, p, s, ids[0]);
      var p1 := Failover(g, up, p, s, ids[0]);
      hide Failover, Landed, Tidy, Usables;
      LandedSettles(g, up, p, p1, ids[0], Place(g, Usables(up, p), p.requests[ids[0]], s));
      AllSettle(g, up, p1, s, ids[1..]);
      SettlingTrans(up, p, p1, FailoverAll(g, up, p1, s, ids[1..]), [ids[0]], ids[1..]);
      assert [ids[0]] + ids[1..] == ids;
    }
  }

  lemma {:induction false} AllThenOne(g: Config, up: set<ServerId>, p: Pool, s: ServerId, ids: seq<RequestId>,
                                      r: RequestId)
    requires Shaped(g, p) && s < |p.servers| && IdsOk(|p.requests|, ids + [r])
    ensures r < |p.requests| && IdsOk(|p.requests|, ids)
    ensures FailoverAll(g, up, p, s, ids + [r]) == Failover(g, up, FailoverAll(g, up, p, s, ids), s, r)
    decreases |ids|
  {
    assert r in ids + [r] && forall x :: x in ids ==> x in ids + [r];
    if ids == [] {
      assert ids + [r] == [r] && [r][1..] == [];
      assert FailoverAll(g, up, Failover(g, up, p, s, r), s, []) == Failover(g, up, p, s, r);
    } else {
      assert ids[0] in ids && (ids + [r])[0] == ids[0] && (ids + [r])[1..] == ids[1..] + [r];
      assert forall x :: x in ids[1..] + [r] ==> x in ids + [r];
      hide Failover;
      AllThenOne(g, up, Failover(g, up, p, s, ids[0]), s, ids[1..], r);
    }
  }

  // ---------------------------------------------------------------------------------------------------------
  // The lost reconnect, step by step

  /** The pool is in order and the answered request is done: pipelines and streams are sound, every request is in one
      place only, and request r is free and nowhere else. */
  ghost predicate Finished(p: Pool, r: RequestId) { ServersOk(p) && Exclusive(p) && r in p.free }

  /** A reply that is complete, with what the invariant says about its server. */
  ghost predicate Complete(g: Config, p: Pool, s: ServerId, r: RequestId, toSend: set<ServerId>, toRead: set<ServerId>)
  {
    PoolOk(g, p, toSend, toRead) && s < |p.servers| && p.servers[s].readreq == Some(r) && p.servers[s].wire != []
  }

  /** The pool with the reply in the log, and then with the server down and empty. */
  function Logged(p: Pool, s: ServerId, r: RequestId): Pool
    requires s < |p.servers| && p.servers[s].wire != []
  {
    p.(log := p.log + [(r, p.servers[s].wire[0])])
  }

  lemma LoggedOk(g: Config, p: Pool, s: ServerId, r: RequestId, toSend: set<ServerId>, toRead: set<ServerId>)
    requires Complete(g, p, s, r, toSend, toRead)
    ensures PoolOk(g, Logged(p, s, r), toSend, toRead) && r < |p.requests| && ServerOk(p.requests, s, p.servers[s])
  {
    assert ServerOk(p.requests, s, p.servers[s]);
    ReplyBelongs(p.requests, s, p.servers[s]);
    var p' := Logged(p, s, r);
    assert forall t, x :: On(p', t, x) <==> On(p, t, x);
    assert ServersOk(p');
  }

  /** While the request in the read slot is still being sent, both lines are the same: it, and what is queued. */
  lemma SameLines(v: Server, r: RequestId)
    requires Aligned(v) && v.readreq == Some(r) && v.sendreq == Some(r)
    ensures v.readqueue == v.sendqueue && NoDuplicates([r] + v.sendqueue) && Evicted(v) == v.sendqueue + [r]
  {
    var send, read := SendLine(v), ReadLine(v);
    var k := |read| - |send|;
    assert send[0] == r && read[0] == r && read[k..][0] == read[k];
    assert read == send;
    assert send[1..] == v.sendqueue && read[1..] == v.readqueue;
    assert read == [r] + v.sendqueue;
    forall i | 0 <= i < |v.readqueue| ensures v.readqueue[i] != r {
      assert read[1 + i] == v.readqueue[i];
    }
  }

  /** What the code does then: the server goes down, the queued requests and after them the answered one are failed
      over, and the first of the queued ones is failed over once more. */
  datatype Stages = Stages(empty: Pool, first: Pool, mid: Pool, all: Pool, last: Pool)

  function StagesOf(g: Config, up: set<ServerId>, p: Pool, s: ServerId, r: RequestId): Stages
    requires Shaped(g, p) && s < |p.servers| && r < |p.requests| && p.servers[s].wire != []
    requires p.servers[s].sendqueue != [] && IdsOk(|p.requests|, p.servers[s].sendqueue)
  {
    var queue := p.servers[s].sendqueue;
    assert queue[0] in queue && forall x :: x in queue[1..] ==> x in queue;
    EvictedInRange(g, Logged(p, s, r), s);
    var empty := Clear(Logged(p, s, r), s);
    var first := Failover(g, up, empty, s, queue[0]);
    var mid := FailoverAll(g, up, first, s, queue[1..]);
    var all := Failover(g, up, mid, s, r);
    Stages(empty, first, mid, all, Failover(g, up, all, s, queue[0]))
  }

  /** How each stage follows from the one before. */
  ghost predicate Staged(g: Config, up: set<ServerId>, p: Pool, s: ServerId, r: RequestId, next: RequestId,
                         rest: seq<RequestId>, k: Stages) {
    var ok := Usables(up, k.empty);
    && s < |p.servers| && r < |p.requests| && next < |p.requests| && next != r && next !in rest && r !in rest
    && k.empty.servers == p.servers[s := DownServer] && k.empty.requests == p.requests && Tidy(up, k.empty)
    && Landed(g, up, k.empty, k.first, next, Place(g, ok, p.requests[next], s)) && SameGround(up, k.empty, k.first)
    && Settling(up, k.first, k.mid, rest)
    && Landed(g, up, k.mid, k.all, r, Place(g, ok, p.requests[r], s)) && SameGround(up, k.mid, k.all)
    && |k.all.requests| == |p.requests|
    && Landed(g, up, k.all, k.last, next, Place(g, ok, k.all.requests[next], s)) && SameGround(up, k.all, k.last)
  }

  lemma ClearedTidy(g: Config, up: set<ServerId>, p: Pool, s: ServerId, toSend: set<ServerId>, toRead: set<ServerId>)
    requires PoolOk(g, p, toSend, toRead) && s < |p.servers|
    ensures Shaped(g, Clear(p, s)) && Tidy(up, Clear(p, s))
    ensures Clear(p, s).servers == p.servers[s := DownServer] && Clear(p, s).requests == p.requests
  {
    EvictedInRange(g, p, s);
    var p' := Clear(p, s);
    hide PoolOk, ServerOk, Shaped, Usable, ReadLine, SendLine, TidyServer;
    forall t | 0 <= t < |p.servers|
      ensures TidyServer(p'.servers[t])
      ensures !Usable(up, p', t) ==> ReadLine(p'.servers[t]) == [] && SendLine(p'.servers[t]) == []
    {
      ClearedAt(g, up, p, s, t, toSend, toRead);
    }
  }

  lemma ClearedAt(g: Config, up: set<ServerId>, p: Pool, s: ServerId, t: ServerId,
                  toSend: set<ServerId>, toRead: set<ServerId>)
    requires PoolOk(g, p, toSend, toRead) && s < |p.servers| && t < |p.servers|
    ensures var p' := Clear(p, s);
            TidyServer(p'.servers[t])
            && (!Usable(up, p', t) ==> ReadLine(p'.servers[t]) == [] && SendLine(p'.servers[t]) == [])
  {
    assert ServerOk(p.requests, t, p.servers[t]);
    hide PoolOk, ServerOk;
    if t == s {
      assert ReadLine(DownServer) == [] && SendLine(DownServer) == [];
    } else {
      SoundTidy(up, Clear(p, s), t);
    }
  }

  lemma SoundTidy(up: set<ServerId>, p: Pool, t: ServerId)
    requires t < |p.servers| && ServerOk(p.requests, t, p.servers[t])
    ensures TidyServer(p.servers[t])
    ensures !Usable(up, p, t) ==> ReadLine(p.servers[t]) == [] && SendLine(p.servers[t]) == []
  {
  }

  lemma LostStages(g: Config, up: set<ServerId>, p: Pool, s: ServerId, r: RequestId,
                   toSend: set<ServerId>, toRead: set<ServerId>)
    requires Complete(g, p, s, r, toSend, toRead) && LostReconnect(up, p, s)
    ensures r < |p.requests| && IdsOk(|p.requests|, p.servers[s].sendqueue)
    ensures var queue := p.servers[s].sendqueue;
            Staged(g, up, p, s, r, queue[0], queue[1..], StagesOf(g, up, p, s, r))
  {
    LoggedOk(g, p, s, r, toSend, toRead);
    SlotInRange(g, p, s);
    var v, pl := p.servers[s], Logged(p, s, r);
    SameLines(v, r);
    QueueDistinct(r, v.sendqueue);
    IdsTail(|p.requests|, v.sendqueue);
    ClearedTidy(g, up, pl, s, toSend, toRead);
    var (k, next, rest) := (StagesOf(g, up, p, s, r), v.sendqueue[0], v.sendqueue[1..]);
    hide PoolOk, ServerOk, Clear, Failover, FailoverAll, Landed, Tidy, Place, LostReconnect, NoDuplicates, Aligned;
    FailoverLands(g, up, k.empty, s, next);
    AllSettle(g, up, k.first, s, rest);
    FailoverLands(g, up, k.mid, s, r);
    FailoverLands(g, up, k.all, s, next);
    LandedOthers(g, up, k.empty, k.first, next, Place(g, Usables(up, k.empty), p.requests[next], s), r);
    LandedCount(g, up, k.mid, k.all, r, Place(g, Usables(up, k.mid), k.mid.requests[r], s));
  }

  lemma IdsTail(bound: nat, ids: seq<RequestId>)
    requires IdsOk(bound, ids) && ids != []
    ensures ids[0] < bound && IdsOk(bound, ids[1..])
  {
    assert ids[0] in ids && forall x :: x in ids[1..] ==> x in ids;
  }

  lemma QueueDistinct(r: RequestId, queue: seq<RequestId>)
    requires NoDuplicates([r] + queue) && queue != []
    ensures queue[0] != r && queue[0] !in queue[1..] && r !in queue[1..]
    ensures queue == [queue[0]] + queue[1..]
  {
    var a := [r] + queue;
    assert a[0] == r && a[1] == queue[0] && forall i :: 0 <= i < |queue[1..]| ==> queue[1..][i] == a[i + 2];
  }

  lemma LandedOthers(g: Config, up: set<ServerId>, p: Pool, p': Pool, r: RequestId, l: Landing, x: RequestId)
    requires Landed(g, up, p, p', r, l) && x != r && x < |p.requests|
    ensures |p'.requests| == |p.requests| && p'.requests[x] == p.requests[x]
  {
  }

  lemma LandedCount(g: Config, up: set<ServerId>, p: Pool, p': Pool, r: RequestId, l: Landing)
    requires Landed(g, up, p, p', r, l)
    ensures |p'.requests| == |p.requests|
  {
  }

  lemma LostLines(g: Config, up: set<ServerId>, p: Pool, s: ServerId, r: RequestId, toSend: set<ServerId>,
                  toRead: set<ServerId>)
    requires Complete(g, p, s, r, toSend, toRead) && LostReconnect(up, p, s)
    ensures var (v, pl) := (p.servers[s], Logged(p, s, r));
            && Shaped(g, p) && r < |p.requests| && IdsOk(|p.requests|, v.sendqueue)
            && v.sendqueue[0] < |p.requests| && IdsOk(|p.requests|, v.sendqueue[1..])
            && Evicted(v) == [v.sendqueue[0]] + v.sendqueue[1..] + [r] && v.sendreq == v.readreq
            && Shaped(g, pl) && LostReconnect(up, pl, s)
  {
    LoggedOk(g, p, s, r, toSend, toRead);
    SlotInRange(g, p, s);
    SameLines(p.servers[s], r);
    QueueDistinct(r, p.servers[s].sendqueue);
    IdsTail(|p.requests|, p.servers[s].sendqueue);
  }

  /** The third stage is mmc_server_deactivate's work, and the last one is where the reply leaves the pool. */
  lemma LostIs(g: Config, up: set<ServerId>, p: Pool, s: ServerId, r: RequestId, toSend: set<ServerId>,
               toRead: set<ServerId>)
    requires Complete(g, p, s, r, toSend, toRead) && LostReconnect(up, p, s)
    ensures r < |p.requests| && IdsOk(|p.requests|, p.servers[s].sendqueue)
    ensures StagesOf(g, up, p, s, r).all == Deactivate(g, up, Logged(p, s, r), s)
    ensures var last := StagesOf(g, up, p, s, r).last;
            && IsDown(last, s) && ReadDone(g, up, p, s).0 == last.(sending := Without(last.sending, s))
            && last == Failover(g, up, StagesOf(g, up, p, s, r).all, s, p.servers[s].sendqueue[0])
  {
    LostLines(g, up, p, s, r, toSend, toRead);
    hide PoolOk, Complete, Deactivate, Failover, Shaped, Evicted, IdsOk, StagesOf, ReadDone, DropStream,
         LostReconnect;
    StagesAre(g, up, p, s, r);
    DropEnds(g, up, Logged(p, s, r), s);
    DoneIsDrop(g, up, p, s, r);
  }

  lemma StagesAre(g: Config, up: set<ServerId>, p: Pool, s: ServerId, r: RequestId)
    requires Shaped(g, p) && s < |p.servers| && r < |p.requests| && p.servers[s].wire != []
             && Shaped(g, Logged(p, s, r))
    requires var queue := p.servers[s].sendqueue;
             && queue != [] && IdsOk(|p.requests|, queue) && queue[0] < |p.requests| && IdsOk(|p.requests|, queue[1..])
             && Evicted(p.servers[s]) == [queue[0]] + queue[1..] + [r]
    ensures var (k, all) := (StagesOf(g, up, p, s, r), Deactivate(g, up, Logged(p, s, r), s));
            k.all == all && k.last == Failover(g, up, all, s, p.servers[s].sendqueue[0])
  {
    var queue := p.servers[s].sendqueue;
    AllIsDeactivate(g, up, Logged(p, s, r), s, queue[0], queue[1..], r);
    hide Deactivate, Failover, FailoverAll, Clear, Shaped, Evicted, IdsOk;
  }

  lemma DoneIsDrop(g: Config, up: set<ServerId>, p: Pool, s: ServerId, r: RequestId)
    requires Shaped(g, p) && s < |p.servers| && p.servers[s].wire != [] && Shaped(g, Logged(p, s, r))
    requires p.servers[s].readreq == Some(r) == p.servers[s].sendreq && IsDown(DropStream(g, up, Logged(p, s, r), s), s)
    ensures ReadDone(g, up, p, s).0 == DropStream(g, up, Logged(p, s, r), s)
  {
    hide DropStream, Shaped;
    var d := DropStream(g, up, Logged(p, s, r), s);
    assert d.servers[s := DownServer] == d.servers;
  }

  /** Dropping the stream: the server is down afterwards, and its list need not be looked at again. */
  lemma DropEnds(g: Config, up: set<ServerId>, p: Pool, s: ServerId)
    requires Shaped(g, p) && s < |p.servers| && LostReconnect(up, p, s)
    ensures p.servers[s].sendqueue[0] < |p.requests|
    ensures var (d, last) := (DropStream(g, up, p, s),
                              Failover(g, up, Deactivate(g, up, p, s), s, p.servers[s].sendqueue[0]));
            IsDown(last, s) && IsDown(d, s) && d == last.(sending := Without(last.sending, s))
  {
    SlotInRange(g, p, s);
    assert p.servers[s].sendqueue[0] in p.servers[s].sendqueue;
    hide Deactivate, Failover, DropStream, Shaped;
    DropIs(g, up, p, s);
    DroppedIsDown(g, up, p, s);
  }

  lemma AllIsDeactivate(g: Config, up: set<ServerId>, p: Pool, s: ServerId, next: RequestId, rest: seq<RequestId>,
                        r: RequestId)
    requires Shaped(g, p) && s < |p.servers| && next < |p.requests| && r < |p.requests| && IdsOk(|p.requests|, rest)
    requires Evicted(p.servers[s]) == [next] + rest + [r]
    ensures Shaped(g, Clear(p, s))
    ensures Failover(g, up, FailoverAll(g, up, Failover(g, up, Clear(p, s), s, next), s, rest), s, r)
            == Deactivate(g, up, p, s)
  {
    EvictedInRange(g, p, s);
    var (empty, queue) := (Clear(p, s), [next] + rest);
    AllThenOne(g, up, empty, s, queue, r);
    assert queue[0] == next && queue[1..] == rest;
    hide Failover, Clear;
  }

  /** What dropping the stream does in this case. */
  lemma DropIs(g: Config, up: set<ServerId>, p: Pool, s: ServerId)
    requires Shaped(g, p) && s < |p.servers| && LostReconnect(up, p, s)
    ensures p.servers[s].sendqueue[0] < |p.requests|
    ensures DropStream(g, up, p, s)
            == Unlisted(Failover(g, up, Deactivate(g, up, p, s), s, p.servers[s].sendqueue[0]), s)
  {
    SlotInRange(g, p, s);
    var v := p.servers[s];
    assert v.sendqueue[0] in v.sendqueue;
    var p1 := WithServer(p, s, v.(status := Disconnected, wire := []));
    assert ServerShaped(|p.requests|, v);
    assert ReadLine(p1.servers[s]) == ReadLine(v) && SendLine(p1.servers[s]) == SendLine(v);
    EvictedInRange(g, p, s);
    assert Clear(p1, s).servers == Clear(p, s).servers;
    assert Clear(p1, s) == Clear(p, s) && Evicted(p1.servers[s]) == Evicted(v);
    var all := Deactivate(g, up, p, s);
    assert Deactivate(g, up, p1, s) == all;
    DownAfterDeactivate(g, up, p, s, s);
    assert all.servers[s := DownServer] == all.servers;
    assert WithServer(all, s, all.servers[s].(sendreq := None)) == all;
    hide Deactivate, Failover, Clear;
  }

  // ---------------------------------------------------------------------------------------------------------
  // When it does no harm

  /** Neither the answered request nor the queued one finds another server; or the queued one finds the same server
      both times, behind requests that are already there. */
  predicate Harmless(g: Config, up: set<ServerId>, p: Pool, s: ServerId, r: RequestId, next: RequestId)
    requires s < |p.servers| && r < |p.requests| && next < |p.requests|
  {
    var ok := Usables(up, p) - {s};
    && Place(g, ok, p.requests[r], s).Nowhere?
    && match Place(g, ok, p.requests[next], s)
       case Nowhere => true
       case Lands(t, skip, index) =>
         var again := Walk(g, ok, p.requests[next].key, s, skip, index);
         again.Lands? && again.server == t && p.servers[t].sendreq.Some?
  }

  lemma StagedOk(g: Config, up: set<ServerId>, p: Pool, s: ServerId, r: RequestId, next: RequestId,
                 rest: seq<RequestId>, k: Stages)
    requires Staged(g, up, p, s, r, next, rest, k)
    ensures Usables(up, k.empty) == Usables(up, p) - {s}
  {
    forall t: ServerId ensures t in Usables(up, k.empty) <==> t in Usables(up, p) && t != s {
    }
  }

  /** A request on two servers, or on a server and in the free list. */
  lemma NotExclusive(p: Pool, t: ServerId, x: RequestId)
    requires On(p, t, x) && (x in p.free || exists t' :: t' != t && On(p, t', x))
    ensures !Exclusive(p)
  {
  }

  /** The answered request found another server: it will be sent again. */
  lemma SentAgain(g: Config, up: set<ServerId>, p: Pool, s: ServerId, r: RequestId, next: RequestId,
                  rest: seq<RequestId>, k: Stages)
    requires Staged(g, up, p, s, r, next, rest, k) && Place(g, Usables(up, k.empty), p.requests[r], s).Lands?
    ensures exists t :: On(k.last, t, r)
    ensures !Finished(k.last, r)
  {
    var l := Place(g, Usables(up, k.empty), p.requests[r], s);
    hide Staged, Landed, Tidy, Place;
    assert Landed(g, up, k.mid, k.all, r, l) && Tidy(up, k.mid) && SameGround(up, k.mid, k.all) by {
      StagedParts(g, up, p, s, r, next, rest, k);
    }
    LandedSettles(g, up, k.mid, k.all, r, l);
    LastSettles(g, up, p, s, r, next, rest, k);
    OnSettles(up, k.all, k.last, [next], l.server, r);
    if r in k.last.free { NotExclusive(k.last, l.server, r); }
  }

  lemma StagedParts(g: Config, up: set<ServerId>, p: Pool, s: ServerId, r: RequestId, next: RequestId,
                    rest: seq<RequestId>, k: Stages)
    requires Staged(g, up, p, s, r, next, rest, k)
    ensures Tidy(up, k.empty) && Tidy(up, k.first) && Tidy(up, k.mid) && Tidy(up, k.all) && Tidy(up, k.last)
    ensures Landed(g, up, k.mid, k.all, r, Place(g, Usables(up, k.empty), p.requests[r], s))
    ensures SameGround(up, k.mid, k.all)
  {
    hide Landed, Tidy, Place;
  }

  lemma LastSettles(g: Config, up: set<ServerId>, p: Pool, s: ServerId, r: RequestId, next: RequestId,
                    rest: seq<RequestId>, k: Stages)
    requires Staged(g, up, p, s, r, next, rest, k)
    ensures Settling(up, k.all, k.last, [next])
    ensures Settling(up, k.first, k.all, rest + [r])
  {
    StagedParts(g, up, p, s, r, next, rest, k);
    hide Landed, Tidy, Place;
    LandedSettles(g, up, k.all, k.last, next, Place(g, Usables(up, k.empty), k.all.requests[next], s));
    LandedSettles(g, up, k.mid, k.all, r, Place(g, Usables(up, k.empty), p.requests[r], s));
    SettlingTrans(up, k.first, k.mid, k.all, rest, [r]);
  }

  lemma OnSettles(up: set<ServerId>, p: Pool, p': Pool, ids: seq<RequestId>, t: ServerId, x: RequestId)
    requires Settling(up, p, p', ids) && On(p, t, x) && Tidy(up, p)
    ensures On(p', t, x)
  {
    AtTidy(up, p, t);
    assert Usable(up, p, t);
    assert Grew(p.servers[t], p'.servers[t]);
  }

  /** Where the queued request went first, and that its record takes the second failover on from there. */
  lemma QueuedFirst(g: Config, up: set<ServerId>, p: Pool, s: ServerId, r: RequestId, next: RequestId,
                    rest: seq<RequestId>, k: Stages)
    requires Staged(g, up, p, s, r, next, rest, k)
    ensures var (ok, q) := (Usables(up, k.empty), p.requests[next]);
            var (l, again) := (Place(g, ok, q, s), Place(g, ok, k.all.requests[next], s));
            if l.Lands? then
              && again == Walk(g, ok, q.key, s, l.skip, l.index)
              && l.server < |p.servers| == |k.empty.servers| == |k.first.servers| == |k.all.servers| && l.server != s
              && k.empty.servers[l.server] == p.servers[l.server]
              && Appended(p.servers[l.server], k.first.servers[l.server], next)
              && Grew(k.first.servers[l.server], k.all.servers[l.server])
              && On(k.all, l.server, next) && On(k.last, l.server, next)
            else again == Nowhere && next in k.all.free
  {
    StagedParts(g, up, p, s, r, next, rest, k);
    LastSettles(g, up, p, s, r, next, rest, k);
    var (ok, l) := (Usables(up, k.empty), Place(g, Usables(up, k.empty), p.requests[next], s));
    assert next !in rest + [r];
    hide Tidy, PushUnique, Appended, Grew;
    LandedSettles(g, up, k.empty, k.first, next, l);
    assert k.all.requests[next] == k.first.requests[next];
    WalkOn(g, up, ok, k.empty, k.first, next, l, s);
    if l.Lands? {
      OnSettles(up, k.first, k.all, rest + [r], l.server, next);
      OnSettles(up, k.all, k.last, [next], l.server, next);
      assert l.server in Usables(up, k.first);
    }
  }

  /** A request that found a server goes on from there; one that found none has no attempts left. */
  lemma WalkOn(g: Config, up: set<ServerId>, ok: set<ServerId>, p: Pool, p': Pool, r: RequestId, l: Landing,
               s: ServerId)
    requires Landed(g, up, p, p', r, l) && l == Place(g, ok, p.requests[r], s)
    ensures Place(g, ok, p'.requests[r], s)
            == if l.Lands? then Walk(g, ok, p.requests[r].key, s, l.skip, l.index) else Nowhere
  {
    hide Marked, Appended, Usable;
  }

  /** The queued request was handed to failover twice, to different ends. */
  lemma QueuedTwice(g: Config, up: set<ServerId>, p: Pool, s: ServerId, r: RequestId, next: RequestId,
                    rest: seq<RequestId>, k: Stages)
    requires Staged(g, up, p, s, r, next, rest, k)
    requires var l := Place(g, Usables(up, k.empty), p.requests[next], s);
             l.Lands? && l.server < |p.servers|
             && var again := Walk(g, Usables(up, k.empty), p.requests[next].key, s, l.skip, l.index);
                !(again.Lands? && again.server == l.server && p.servers[l.server].sendreq.Some?)
    ensures !Finished(k.last, r)
  {
    QueuedFirst(g, up, p, s, r, next, rest, k);
    var l := Place(g, Usables(up, k.empty), p.requests[next], s);
    var again := Place(g, Usables(up, k.empty), k.all.requests[next], s);
    StagedParts(g, up, p, s, r, next, rest, k);
    LandedSettles(g, up, k.all, k.last, next, again);
    if again.Nowhere? || again.server != l.server {
      NotExclusive(k.last, l.server, next);
    } else {
      hide Tidy, Settling, Place, Walk;
      SentTwice(p.servers[l.server], k.first.servers[l.server], k.all.servers[l.server], k.last.servers[l.server],
                next);
      if ServersOk(k.last) {
        assert Sending(k.last.requests, l.server, k.last.servers[l.server], next);
        SendHead(k.last.requests, l.server, k.last.servers[l.server], next);
      }
    }
  }

  lemma SentTwice(v: Server, v1: Server, v2: Server, v3: Server, next: RequestId)
    requires v.sendreq.None? && Appended(v, v1, next) && Grew(v1, v2) && Appended(v2, v3, next)
    ensures v3.sendreq == Some(next) && next in v3.sendqueue
  {
  }

  /** The same request behind others of the same server changes nothing there. */
  lemma BehindOthers(qs: seq<Request>, t: ServerId, v: Server, v1: Server, v2: Server, v3: Server, next: RequestId)
    requires ServerOk(qs, t, v) && v.sendreq.Some? && Appended(v, v1, next) && Grew(v1, v2) && Appended(v2, v3, next)
    ensures v3 == v2 && next in v2.sendqueue
  {
    assert |SendLine(v)| > 0 && |ReadLine(v)| > 0;
  }

  lemma SameSends(qs: seq<Request>, qs': seq<Request>, s: ServerId, v: Server)
    requires ServerOk(qs, s, v) && |qs'| == |qs|
    requires forall x :: x in ReadLine(v) ==>
               x < |qs| && qs'[x].idx == qs[x].idx && qs'[x].io == qs[x].io && qs'[x].sendbuf == qs[x].sendbuf
    ensures ServerOk(qs', s, v)
  {
    assert forall x :: x in SendLine(v) ==> x in ReadLine(v);
  }

  /** The servers that can be used are as they were, and so is what is to be sent. */
  lemma StillSound(up: set<ServerId>, p: Pool, p': Pool)
    requires ServersOk(p) && Exclusive(p) && Tidy(up, p) && Marked(up, p, p') && |p'.requests| == |p.requests|
    requires forall t :: 0 <= t < |p.servers| && Usable(up, p, t) ==> p'.servers[t] == p.servers[t]
    requires p'.free == p.free
    requires forall t: ServerId, x: RequestId :: On(p, t, x) ==>
               x < |p.requests| && p'.requests[x].idx == p.requests[x].idx
               && p'.requests[x].io == p.requests[x].io && p'.requests[x].sendbuf == p.requests[x].sendbuf
    ensures ServersOk(p') && Exclusive(p')
  {
    forall t | 0 <= t < |p.servers|
      ensures ServerOk(p'.requests, t, p'.servers[t]) && ReadLine(p'.servers[t]) == ReadLine(p.servers[t])
    {
      assert ServerOk(p.requests, t, p.servers[t]);
      AtTidy(up, p, t);
      if p'.servers[t] == p.servers[t] {
        assert forall x :: x in ReadLine(p.servers[t]) ==> On(p, t, x);
        hide ServerOk, TidyServer;
        SameSends(p.requests, p'.requests, t, p.servers[t]);
      } else {
        assert !p.servers[t].status.Connected?;
        assert ReadLine(DownServer) == [] && SendLine(DownServer) == [];
      }
    }
    assert forall t, x :: On(p', t, x) <==> On(p, t, x);
  }

  /** In the harmless case nothing is left to do for the queued request the second time. */
  lemma HarmlessSound(g: Config, up: set<ServerId>, p: Pool, s: ServerId, r: RequestId, next: RequestId,
                      rest: seq<RequestId>, k: Stages)
    requires Staged(g, up, p, s, r, next, rest, k) && Harmless(g, up, p, s, r, next)
    requires ServersOk(p) && ServersOk(k.all) && Exclusive(k.all)
    ensures Finished(k.last, r)
  {
    StagedOk(g, up, p, s, r, next, rest, k);
    StagedParts(g, up, p, s, r, next, rest, k);
    QueuedFirst(g, up, p, s, r, next, rest, k);
    LastLanded(g, up, p, s, r, next, rest, k);
    LastSettles(g, up, p, s, r, next, rest, k);
    var ok := Usables(up, k.empty);
    var (l, again) := (Place(g, ok, p.requests[next], s), Place(g, ok, k.all.requests[next], s));
    assert r in k.last.free by {
      LandedSettles(g, up, k.mid, k.all, r, Nowhere);
    }
    hide Staged, Tidy, ServersOk, Exclusive, Place, Walk, Settling, Appended, Grew, Landed;
    if l.Nowhere? {
      FreeAgain(g, up, k.all, k.last, next);
    } else {
      assert ServerOk(p.requests, l.server, p.servers[l.server]) by { AtServer(p, l.server); }
      hide ServerOk;
      BehindAgain(g, up, p, k.first, k.all, k.last, next, l.server, again);
    }
  }

  /** No request changed its place, none of the free ones changed at all, and no byte to be sent did. */
  ghost predicate Unmoved(up: set<ServerId>, p: Pool, p': Pool) {
    && |p'.requests| == |p.requests| && p'.log == p.log && p'.free == p.free && NewLive(up, p, p')
    && (forall t, x :: On(p', t, x) <==> On(p, t, x))
    && (forall x :: x in p.free && x < |p.requests| ==> p'.requests[x] == p.requests[x])
    && (forall x :: 0 <= x < |p.requests| ==> p'.requests[x].sendbuf == p.requests[x].sendbuf)
  }

  /** And that is all that happens then. */
  lemma HarmlessStays(g: Config, up: set<ServerId>, p: Pool, s: ServerId, r: RequestId, next: RequestId,
                      rest: seq<RequestId>, k: Stages)
    requires Staged(g, up, p, s, r, next, rest, k) && Harmless(g, up, p, s, r, next)
    requires ServersOk(p) && ServersOk(k.all) && Exclusive(k.all) && Shaped(g, k.all) && s < |k.all.servers|
    requires next < |k.all.requests| && k.last == Failover(g, up, k.all, s, next)
    ensures Unmoved(up, k.all, k.last)
  {
    StagedOk(g, up, p, s, r, next, rest, k);
    StagedParts(g, up, p, s, r, next, rest, k);
    QueuedFirst(g, up, p, s, r, next, rest, k);
    LastLanded(g, up, p, s, r, next, rest, k);
    var ok := Usables(up, k.empty);
    var (l, again) := (Place(g, ok, p.requests[next], s), Place(g, ok, k.all.requests[next], s));
    if l.Nowhere? {
      NowhereAgain(g, up, p, s, r, next, rest, k);
      FreeNotOn(k.all, next);
      assert k.last == k.all;
    } else {
      assert ServerOk(p.requests, l.server, p.servers[l.server]) by { AtServer(p, l.server); }
      hide Staged, Tidy, ServersOk, Exclusive, Place, Walk, Appended, Grew, Landed, ServerOk, Unmoved, Failover,
           Shaped;
      BehindStays(g, up, p, k.first, k.all, k.last, next, l.server, again);
    }
  }

  lemma NowhereAgain(g: Config, up: set<ServerId>, p: Pool, s: ServerId, r: RequestId, next: RequestId,
                     rest: seq<RequestId>, k: Stages)
    requires Staged(g, up, p, s, r, next, rest, k) && Place(g, Usables(up, k.empty), p.requests[next], s).Nowhere?
    ensures next < |k.all.requests| && !CanFailOver(g, k.all.requests[next])
  {
    LastSettles(g, up, p, s, r, next, rest, k);
    assert next !in rest + [r];
  }

  lemma BehindStays(g: Config, up: set<ServerId>, p0: Pool, p1: Pool, p: Pool, p': Pool, next: RequestId,
                    t: ServerId, l: Landing)
    requires ServersOk(p) && Exclusive(p) && Tidy(up, p) && Landed(g, up, p, p', next, l) && On(p, t, next)
    requires l.Lands? && l.server == t && t < |p0.servers| == |p1.servers| == |p.servers|
    requires ServerOk(p0.requests, t, p0.servers[t]) && p0.servers[t].sendreq.Some?
    requires Appended(p0.servers[t], p1.servers[t], next) && Grew(p1.servers[t], p.servers[t])
    ensures Unmoved(up, p, p')
  {
    BehindOthers(p0.requests, t, p0.servers[t], p1.servers[t], p.servers[t], p'.servers[t], next);
    hide ServersOk, ServerOk, Appended, Grew, Usable;
    SameOns(up, p, p');
    hide Tidy, On;
  }

  lemma SameOns(up: set<ServerId>, p: Pool, p': Pool)
    requires Tidy(up, p) && Marked(up, p, p')
    requires forall t :: 0 <= t < |p.servers| && Usable(up, p, t) ==> p'.servers[t] == p.servers[t]
    ensures (forall t, x :: On(p', t, x) <==> On(p, t, x)) && NewLive(up, p, p')
  {
    forall t | 0 <= t < |p.servers| ensures ReadLine(p'.servers[t]) == ReadLine(p.servers[t]) {
      AtTidy(up, p, t);
      assert ReadLine(DownServer) == [];
    }
  }

  lemma FreeAgain(g: Config, up: set<ServerId>, p: Pool, p': Pool, next: RequestId)
    requires ServersOk(p) && Exclusive(p) && Tidy(up, p) && Landed(g, up, p, p', next, Nowhere) && next in p.free
    ensures ServersOk(p') && Exclusive(p')
  {
    FreeNotOn(p, next);
    OnsInRange(p);
    hide ServersOk, Exclusive, Tidy, On;
    StillSound(up, p, p');
  }

  lemma BehindAgain(g: Config, up: set<ServerId>, p0: Pool, p1: Pool, p: Pool, p': Pool, next: RequestId,
                    t: ServerId, l: Landing)
    requires ServersOk(p) && Exclusive(p) && Tidy(up, p) && Landed(g, up, p, p', next, l)
    requires l.Lands? && l.server == t && t < |p0.servers| == |p1.servers| == |p.servers|
    requires ServerOk(p0.requests, t, p0.servers[t]) && p0.servers[t].sendreq.Some?
    requires Appended(p0.servers[t], p1.servers[t], next) && Grew(p1.servers[t], p.servers[t])
    ensures ServersOk(p') && Exclusive(p')
  {
    BehindOthers(p0.requests, t, p0.servers[t], p1.servers[t], p.servers[t], p'.servers[t], next);
    OnsInRange(p);
    assert ServerOk(p.requests, t, p.servers[t]) by { AtServer(p, t); }
    assert p.requests[next].idx == 0 && p.servers[t].sendreq.Some?;
    hide ServersOk, Exclusive, Tidy, On, ServerOk, Appended, Grew;
    StillSound(up, p, p');
  }

  lemma LastLanded(g: Config, up: set<ServerId>, p: Pool, s: ServerId, r: RequestId, next: RequestId,
                   rest: seq<RequestId>, k: Stages)
    requires Staged(g, up, p, s, r, next, rest, k)
    ensures next < |k.all.requests|
    ensures Landed(g, up, k.all, k.last, next, Place(g, Usables(up, k.empty), k.all.requests[next], s))
  {
    hide Landed, Tidy, Place;
  }

  lemma FreeNotOn(p: Pool, x: RequestId)
    requires Exclusive(p) && x in p.free
    ensures forall t :: !On(p, t, x)
    ensures PushUnique(p.free, x) == p.free
  {
  }

  lemma OnsInRange(p: Pool)
    requires ServersOk(p)
    ensures forall t: ServerId, x: RequestId :: On(p, t, x) ==> x < |p.requests|
  {
    forall t: ServerId, x: RequestId | On(p, t, x) ensures x < |p.requests| {
      assert ServerOk(p.requests, t, p.servers[t]);
    }
  }

  // ---------------------------------------------------------------------------------------------------------
  // The wakeup lists through any cascade

  lemma EnqueueListed(p: Pool, s: ServerId, r: RequestId)
    requires s < |p.servers| && r < |p.requests|
    ensures var p' := Enqueue(p, s, r);
            && p'.sending == (if p.servers[s].sendreq.None? then PushUnique(p.sending, s) else p.sending)
            && p'.reading == (if p.servers[s].readreq.None? then PushUnique(p.reading, s) else p.reading)
  {
    hide PushUnique;
  }

  lemma EnqueueWakes(p: Pool, s: ServerId, r: RequestId, toSend: set<ServerId>, toRead: set<ServerId>)
    requires Awake(p, toSend, toRead) && s < |p.servers| && r < |p.requests| && !p.servers[s].status.Failed?
    ensures Awake(Enqueue(p, s, r), toSend, toRead)
  {
    EnqueueServer(p, s, r);
    EnqueueListed(p, s, r);
    hide Enqueue, Listening;
    ListeningFill(p, Enqueue(p, s, r), SendSide, toSend, s);
    ListeningFill(p, Enqueue(p, s, r), ReadSide, toRead, s);
  }

  lemma {:induction false} AwakeSchedule(g: Config, up: set<ServerId>, p: Pool, s: ServerId, r: RequestId,
                                         toSend: set<ServerId>, toRead: set<ServerId>)
    requires Shaped(g, p) && s < |p.servers| && r < |p.requests| && Awake(p, toSend, toRead)
    ensures Awake(Schedule(g, up, p, s, r), toSend, toRead)
    decreases Budget(g, p.requests), 3, 0
  {
    hide Awake, Enqueue;
    if p.servers[s].status.Failed? {
      AwakeFailover(g, up, p, s, r, toSend, toRead);
    } else if NeedsConnect(p, s) && s !in up {
      var p0 := Rewind(p, r);
      BudgetUpdate(g, p.requests, r, p.requests[r].(idx := 0));
      AwakeSame(p, p0, toSend, toRead);
      AwakeDeactivate(g, up, p0, s, toSend, toRead);
      var p1 := Deactivate(g, up, p0, s);
      DownAfterDeactivate(g, up, p0, s, s);
      assert WithServer(p1, s, p1.servers[s].(sendreq := None)) == p1 by {
        assert p1.servers[s := p1.servers[s]] == p1.servers;
      }
      hide Deactivate, Failover, Rewind;
      AwakeFailover(g, up, p1, s, r, toSend, toRead);
    } else {
      EnqueueWakes(p, s, r, toSend, toRead);
    }
  }

  lemma AwakeSame(p: Pool, p': Pool, toSend: set<ServerId>, toRead: set<ServerId>)
    requires Awake(p, toSend, toRead) && p'.servers == p.servers && p'.sending == p.sending && p'.reading == p.reading
    ensures Awake(p', toSend, toRead)
  {
  }

  lemma {:induction false} AwakeFailover(g: Config, up: set<ServerId>, p: Pool, s: ServerId, r: RequestId,
                                         toSend: set<ServerId>, toRead: set<ServerId>)
    requires Shaped(g, p) && s < |p.servers| && r < |p.requests| && Awake(p, toSend, toRead)
    ensures Awake(Failover(g, up, p, s, r), toSend, toRead)
    decreases Budget(g, p.requests), 0, 0
  {
    hide Awake;
    var q := p.requests[r];
    if CanFailOver(g, q) {
      var (t, skip, index) := NextServer(g, Down(p), q.key, s, q.failedServers, q.failedIndex);
      var q' := q.(failedServers := skip, failedIndex := index);
      BudgetUpdate(g, p.requests, r, q');
      AwakeSame(p, WithRequest(p, r, q'), toSend, toRead);
      AwakeSchedule(g, up, WithRequest(p, r, q'), t, r, toSend, toRead);
    } else {
      AwakeSame(p, Release(p, r), toSend, toRead);
    }
  }

  lemma {:induction false} AwakeDeactivate(g: Config, up: set<ServerId>, p: Pool, s: ServerId,
                                           toSend: set<ServerId>, toRead: set<ServerId>)
    requires Shaped(g, p) && s < |p.servers| && Awake(p, toSend, toRead)
    ensures Awake(Deactivate(g, up, p, s), toSend, toRead)
    decreases Budget(g, p.requests), 2, 0
  {
    EvictedInRange(g, p, s);
    ClearAwake(p, s, toSend, toRead);
    hide Awake;
    AwakeAll(g, up, Clear(p, s), s, Evicted(p.servers[s]), toSend, toRead);
  }

  lemma {:induction false} AwakeAll(g: Config, up: set<ServerId>, p: Pool, s: ServerId, ids: seq<RequestId>,
                                    toSend: set<ServerId>, toRead: set<ServerId>)
    requires Shaped(g, p) && s < |p.servers| && IdsOk(|p.requests|, ids) && Awake(p, toSend, toRead)
    ensures Awake(FailoverAll(g, up, p, s, ids), toSend, toRead)
    decreases Budget(g, p.requests), 1, |ids|
  {
    hide Awake;
    if ids != [] {
      IdsTail(|p.requests|, ids);
      AwakeFailover(g, up, p, s, ids[0], toSend, toRead);
      AwakeAll(g, up, Failover(g, up, p, s, ids[0]), s, ids[1..], toSend, toRead);
    }
  }

  // ---------------------------------------------------------------------------------------------------------
  // The whole completion

  /** A completed reply does no harm: it meets no refused reconnect with more queued, or one that is harmless. */
  predicate CompletesWell(g: Config, up: set<ServerId>, p: Pool, s: ServerId)
    requires s < |p.servers|
  {
    LostReconnect(up, p, s) ==>
      var v := p.servers[s];
      && v.readreq.Some? && v.readreq.value < |p.requests| && v.sendqueue[0] < |p.requests|
      && Harmless(g, up, p, s, v.readreq.value, v.sendqueue[0])
  }

  /** Once it does no harm, the round can go on: the invariant holds in full, and the books are right. */
  lemma CompletesOk(g: Config, up: set<ServerId>, p: Pool, s: ServerId, toRead: set<ServerId>)
    requires Reading(g, p, s, toRead) && CompletesWell(g, up, p, s)
    ensures var p' := ReadDone(g, up, p, s).0;
            && StepOk(g, up, p, p', {}, if p'.servers[s].readreq.Some? then toRead + {s} else toRead)
            && p.servers[s].readreq.value in p'.free
  {
    if !LostReconnect(up, p, s) {
      ReadDoneOk(g, up, p, s, toRead);
    } else {
      HarmlessOk(g, up, p, s, p.servers[s].readreq.value, toRead);
    }
  }

  lemma HarmlessOk(g: Config, up: set<ServerId>, p: Pool, s: ServerId, r: RequestId, toRead: set<ServerId>)
    requires Reading(g, p, s, toRead) && p.servers[s].readreq == Some(r) && LostReconnect(up, p, s)
    requires r < |p.requests| && p.servers[s].sendqueue[0] < |p.requests|
    requires Harmless(g, up, p, s, r, p.servers[s].sendqueue[0])
    ensures var p' := ReadDone(g, up, p, s).0;
            StepOk(g, up, p, p', {}, toRead) && p'.servers[s].readreq.None? && r in p'.free
  {
    var (k, next, rest) := (StagesOf(g, up, p, s, r), p.servers[s].sendqueue[0], p.servers[s].sendqueue[1..]);
    hide *;
    DeactivatedOk(g, up, p, s, r, toRead);
    HarmlessLast(g, up, p, s, r, next, rest, k, toRead);
    assert StepOk(g, up, p, k.last, {}, toRead) by { StepTrans(g, up, p, k.all, k.last, toRead); }
    LastIsDown(g, up, p, s, r, toRead, k.last);
  }

  lemma StepTrans(g: Config, up: set<ServerId>, p: Pool, p1: Pool, p2: Pool, toRead: set<ServerId>)
    requires StepOk(g, up, p, p1, {}, toRead) && StepOk(g, up, p1, p2, {}, toRead)
    ensures StepOk(g, up, p, p2, {}, toRead)
  {
    hide PoolOk, Accounted;
    AccountedTrans(g, p, p1, p2);
  }

  lemma LastIsDown(g: Config, up: set<ServerId>, p: Pool, s: ServerId, r: RequestId, toRead: set<ServerId>, last: Pool)
    requires Reading(g, p, s, toRead) && StepOk(g, up, p, last, {}, toRead) && IsDown(last, s)
    requires ReadDone(g, up, p, s).0 == last.(sending := Without(last.sending, s)) && r in last.free
    ensures var p' := ReadDone(g, up, p, s).0;
            StepOk(g, up, p, p', {}, toRead) && p'.servers[s].readreq.None? && r in p'.free
  {
    hide ReadDone, Accounted, NewLive;
    DownUnlisted(g, last, s, toRead);
  }

  /** Up to the deactivation nothing is out of order. */
  lemma DeactivatedOk(g: Config, up: set<ServerId>, p: Pool, s: ServerId, r: RequestId, toRead: set<ServerId>)
    requires Reading(g, p, s, toRead) && p.servers[s].readreq == Some(r) && LostReconnect(up, p, s)
    ensures r < |p.requests| && IdsOk(|p.requests|, p.servers[s].sendqueue)
    ensures var (queue, k) := (p.servers[s].sendqueue, StagesOf(g, up, p, s, r));
            && Staged(g, up, p, s, r, queue[0], queue[1..], k) && ServersOk(p)
            && StepOk(g, up, p, k.all, {}, toRead)
            && queue[0] < |k.all.requests| && s < |k.all.servers| && Shaped(g, k.all)
            && k.last == Failover(g, up, k.all, s, queue[0])
            && IsDown(k.last, s) && ReadDone(g, up, p, s).0 == k.last.(sending := Without(k.last.sending, s))
  {
    assert Complete(g, p, s, r, {}, toRead + {s}) && ServersOk(p) && Shaped(g, p);
    hide Reading, StagesOf, Staged, ReadDone, Deactivate, LostReconnect, ServersOk, StepOk;
    LostStages(g, up, p, s, r, {}, toRead + {s});
    LostIs(g, up, p, s, r, {}, toRead + {s});
    LoggedOk(g, p, s, r, {}, toRead + {s});
    ReadingIs(g, p, s, toRead);
    var (k, queue, pl) := (StagesOf(g, up, p, s, r), p.servers[s].sendqueue, Logged(p, s, r));
    IdsTail(|p.requests|, queue);
    hide Complete, PoolOk, ServerOk;
    DeactivateStep(g, up, pl, s, toRead);
    LoggedAccounted(g, up, p, s, r);
    BooksTrans(g, up, p, pl, k.all, toRead);
  }

  lemma ReadingIs(g: Config, p: Pool, s: ServerId, toRead: set<ServerId>)
    requires Reading(g, p, s, toRead)
    ensures s < |p.servers| && s !in toRead
  {
  }

  lemma BooksTrans(g: Config, up: set<ServerId>, p: Pool, p1: Pool, p2: Pool, toRead: set<ServerId>)
    requires Accounted(g, p, p1) && NewLive(up, p, p1) && StepOk(g, up, p1, p2, {}, toRead)
    ensures StepOk(g, up, p, p2, {}, toRead) && Shaped(g, p2) && |p2.servers| == |p.servers|
            && |p2.requests| == |p.requests|
  {
    AccountedTrans(g, p, p1, p2);
  }

  /** And the second failover of the next request changes nothing. */
  lemma HarmlessLast(g: Config, up: set<ServerId>, p: Pool, s: ServerId, r: RequestId, next: RequestId,
                     rest: seq<RequestId>, k: Stages, toRead: set<ServerId>)
    requires Staged(g, up, p, s, r, next, rest, k) && Harmless(g, up, p, s, r, next) && ServersOk(p)
    requires PoolOk(g, k.all, {}, toRead) && next < |k.all.requests| && s < |k.all.servers|
    requires k.last == Failover(g, up, k.all, s, next)
    ensures StepOk(g, up, k.all, k.last, {}, toRead) && r in k.last.free
  {
    hide Staged, Harmless, Failover, ServersOk, Exclusive, Shaped, Awake, Unmoved;
    HarmlessSound(g, up, p, s, r, next, rest, k);
    HarmlessStays(g, up, p, s, r, next, rest, k);
    AwakeFailover(g, up, k.all, s, next, {}, toRead);
    UnmovedOk(g, up, k.all, k.last, toRead);
  }

  lemma LoggedAccounted(g: Config, up: set<ServerId>, p: Pool, s: ServerId, r: RequestId)
    requires s < |p.servers| && p.servers[s].wire != []
    ensures Accounted(g, p, Logged(p, s, r)) && NewLive(up, p, Logged(p, s, r))
  {
    assert forall t, x :: On(Logged(p, s, r), t, x) <==> On(p, t, x);
  }

  lemma DeactivateStep(g: Config, up: set<ServerId>, p: Pool, s: ServerId, toRead: set<ServerId>)
    requires PoolOk(g, p, {}, toRead + {s}) && s !in toRead && s < |p.servers|
    ensures StepOk(g, up, p, Deactivate(g, up, p, s), {}, toRead)
  {
    DeactivateOk(g, up, p, s, {}, toRead + {s});
    EvictedOk(g, p, s, {}, toRead + {s});
    hide PoolOk, Carried, Accounted, NewLive;
    CarriedAccounted(g, up, p, Deactivate(g, up, p, s), Evicted(p.servers[s]));
    var none: set<ServerId> := {};
    assert none - {s} == {} && toRead + {s} - {s} == toRead;
    SkipFailed(g, Deactivate(g, up, p, s), s, {}, toRead + {s});
  }

  lemma UnmovedOk(g: Config, up: set<ServerId>, p: Pool, p': Pool, toRead: set<ServerId>)
    requires PoolOk(g, p, {}, toRead) && Unmoved(up, p, p') && ServersOk(p') && Exclusive(p') && Shaped(g, p')
    requires Awake(p', {}, toRead)
    ensures StepOk(g, up, p, p', {}, toRead)
  {
    hide ServersOk, Exclusive, Shaped, Awake;
    forall x ensures Tracked(p', x) <==> Tracked(p, x) { }
    hide On, Tracked;
  }

  lemma DownUnlisted(g: Config, p: Pool, s: ServerId, toRead: set<ServerId>)
    requires PoolOk(g, p, {}, toRead) && IsDown(p, s)
    ensures p.(sending := Without(p.sending, s)) == p
  {
    assert s !in p.sending;
    WithoutAbsent(p.sending, s);
  }

  /** Exactly when a completed reply leaves the pool in order, wakeup lists included, and its request done: unless it
      meets a refused reconnect with more requests queued, and even then if that does no harm. All of it can be told
      beforehand, from the probes and from which servers are up, open or would accept a connection. */
  lemma CompletionExact(g: Config, up: set<ServerId>, p: Pool, s: ServerId, toRead: set<ServerId>)
    requires Reading(g, p, s, toRead)
    ensures var p' := ReadDone(g, up, p, s).0;
            && PoolOk(g, p', {}, if p'.servers[s].readreq.Some? then toRead + {s} else toRead)
            && p.servers[s].readreq.value in p'.free
            <==> CompletesWell(g, up, p, s)
  {
    if CompletesWell(g, up, p, s) {
      CompletesOk(g, up, p, s, toRead);
    } else {
      LostExact(g, up, p, s, p.servers[s].readreq.value, {}, toRead + {s});
    }
  }

  lemma LostExact(g: Config, up: set<ServerId>, p: Pool, s: ServerId, r: RequestId,
                  toSend: set<ServerId>, toRead: set<ServerId>)
    requires Complete(g, p, s, r, toSend, toRead) && LostReconnect(up, p, s)
    ensures r < |p.requests| && p.servers[s].sendqueue[0] < |p.requests|
    ensures Finished(ReadDone(g, up, p, s).0, r) <==> Harmless(g, up, p, s, r, p.servers[s].sendqueue[0])
  {
    LostStages(g, up, p, s, r, toSend, toRead);
    LostIs(g, up, p, s, r, toSend, toRead);
    LoggedOk(g, p, s, r, toSend, toRead);
    DeactivateOk(g, up, Logged(p, s, r), s, toSend, toRead);
    assert ServersOk(p);
    var k, queue := StagesOf(g, up, p, s, r), p.servers[s].sendqueue;
    assert ServersOk(k.all) && Exclusive(k.all);
    StagedOk(g, up, p, s, r, queue[0], queue[1..], k);
    hide StagesOf, Staged, ReadDone, PoolOk, ServersOk, Exclusive, Place, Walk, Deactivate, LostReconnect;
    var (ok, next, rest) := (Usables(up, k.empty), queue[0], queue[1..]);
    if Place(g, ok, p.requests[r], s).Lands? {
      SentAgain(g, up, p, s, r, next, rest, k);
    } else if Harmless(g, up, p, s, r, next) {
      HarmlessSound(g, up, p, s, r, next, rest, k);
    } else {
      QueuedTwice(g, up, p, s, r, next, rest, k);
    }
    assert Finished(ReadDone(g, up, p, s).0, r) <==> Finished(k.last, r) by {
      SameFinished(ReadDone(g, up, p, s).0, k.last, r);
    }
  }

  lemma SameFinished(p: Pool, p': Pool, r: RequestId)
    requires p'.servers == p.servers && p'.requests == p.requests && p'.free == p.free
    ensures Finished(p, r) <==> Finished(p', r)
  {
    assert forall t, x :: On(p', t, x) <==> On(p, t, x);
  }

  /** If the answered request can be failed over to a server that takes it, it is sent again. */
  lemma LostSentAgain(g: Config, up: set<ServerId>, p: Pool, s: ServerId, r: RequestId,
                      toSend: set<ServerId>, toRead: set<ServerId>)
    requires Complete(g, p, s, r, toSend, toRead) && LostReconnect(up, p, s) && r < |p.requests|
    requires Place(g, Usables(up, p) - {s}, p.requests[r], s).Lands?
    ensures var p' := ReadDone(g, up, p, s).0; (exists t :: On(p', t, r)) && !Finished(p', r)
  {
    LostStages(g, up, p, s, r, toSend, toRead);
    LostIs(g, up, p, s, r, toSend, toRead);
    var (k, queue, p') := (StagesOf(g, up, p, s, r), p.servers[s].sendqueue, ReadDone(g, up, p, s).0);
    StagedOk(g, up, p, s, r, queue[0], queue[1..], k);
    hide StagesOf, Staged, ReadDone, PoolOk, Place, LostReconnect;
    SentAgain(g, up, p, s, r, queue[0], queue[1..], k);
    SameFinished(p', k.last, r);
    var t :| On(k.last, t, r);
    assert On(p', t, r);
  }
}
