/** What becomes of servers that are down and of those whose sockets are not ready. */
module PoolWaiting {
  import opened Basics
  import opened Wrappers
  import opened Sequences
  import opened Routing
  import opened PoolModel
  import opened PoolInvariant
  import opened PoolRound
  import opened PoolTurns
  import opened PoolLanding
  import opened PoolRuns

  // ---------------------------------------------------------------------------------------------------------
  // A failed server stays failed

  lemma DownAfterSlotNext(g: Config, up: set<ServerId>, p: Pool, s: ServerId, t: ServerId)
    requires Shaped(g, p) && s < |p.servers| && t != s && IsDown(p, t)
    ensures IsDown(SlotNext(g, up, p, s), t)
  {
    SlotInRange(g, p, s);
    NextSendShaped(g, p, s);
    var v := p.servers[s];
    if v.sendqueue != [] && !v.status.Connected? && s !in up {
      assert v.sendqueue[0] in v.sendqueue;
      DownAfterDeactivate(g, up, p, s, t);
      var p2 := Deactivate(g, up, p, s);
      SlotCleared(g, p2, s);
      DownAfterFailover(g, up, WithServer(p2, s, p2.servers[s].(sendreq := None)), s, v.sendqueue[0], t);
    }
  }

  lemma DownAfterFail(g: Config, up: set<ServerId>, p: Pool, s: ServerId, side: Side, t: ServerId)
    requires Shaped(g, p) && s < |p.servers| && IsDown(p, t)
    ensures IsDown(Fail(g, up, p, s, side), t)
  {
    SlotInRange(g, p, s);
    DownAfterDeactivate(g, up, p, s, t);
    if ServerFailure(p.servers[s].status).RetryRequest? && SlotOf(side, p.servers[s]).Some? {
      DownAfterRetry(g, up, p, s, SlotOf(side, p.servers[s]).value, t);
    }
  }

  /** A failure is answered by a retry exactly where the stream was found closed while the slot is filled; any other
      brings the server down. */
  lemma FailExactly(g: Config, up: set<ServerId>, p: Pool, s: ServerId, side: Side)
    requires Shaped(g, p) && s < |p.servers|
    ensures var slot := SlotOf(side, p.servers[s]);
            if p.servers[s].status == Disconnected && slot.Some?
            then slot.value < |p.requests| && Fail(g, up, p, s, side) == SelectRetry(g, up, p, s, slot.value)
            else IsDown(Fail(g, up, p, s, side), s)
  {
    SlotInRange(g, p, s);
    DownAfterDeactivate(g, up, p, s, s);
  }

  lemma DownAfterRetry(g: Config, up: set<ServerId>, p: Pool, s: ServerId, r: RequestId, t: ServerId)
    requires Shaped(g, p) && s < |p.servers| && r < |p.requests| && t != s && IsDown(p, t)
    ensures IsDown(SelectRetry(g, up, p, s, r), t)
  {
    QueuesShaped(g, p, s, r);
    var p1 := OutOfQueues(p, s, r);
    DownAfterSlotNext(g, up, p1, s, t);
    var p2 := if p.servers[s].sendreq == Some(r) then SlotNext(g, up, p1, s) else p1;
    hide SlotNext, OutOfQueues;
    DownAfterFailover(g, up, OutOfReadSlot(g, p2, s, r), s, r, t);
  }

  lemma {:induction false} DownAfterSendTurn(g: Config, up: set<ServerId>, p: Pool, reading: seq<ServerId>, s: ServerId,
                                             outs: seq<SendOutcome>, t: ServerId)
    requires Shaped(g, p) && s < |p.servers| && IsDown(p, t)
    ensures IsDown(SendTurn(g, up, p, reading, s, outs).0, t)
    decreases |outs|
  {
    hide Shaped, Fail;
    SlotInRange(g, p, s);
    if p.servers[s].sendreq.Some? && outs != [] && !outs[0].WouldBlock? {
      if outs[0].Broken? {
        DownAfterFail(g, up, p, s, SendSide, t);
      } else {
        var x := p.servers[s].sendreq.value;
        WriteShaped(g, p, s, x, outs[0].n);
        var p1 := Write(p, s, x, outs[0].n);
        if p1.requests[x].idx >= |p1.requests[x].sendbuf| {
          NextSendShaped(g, p1, s);
          DownAfterSendTurn(g, up, NextSend(p1, s), reading, s, outs[1..], t);
        }
      }
    }
  }

  lemma {:induction false} DownAfterSendPhase(g: Config, e: Round, p: Pool, list: seq<ServerId>, reading: seq<ServerId>,
                                              t: ServerId)
    requires Shaped(g, p) && IdsOk(|p.servers|, list) && IsDown(p, t)
    ensures IsDown(SendPhase(g, e, p, list, reading).0, t)
    decreases |list|
  {
    if list != [] {
      var s, rest := list[0], list[1..];
      assert s in list && forall x :: x in rest ==> x in list;
      if p.servers[s].sendreq.None? {
        DownAfterSendPhase(g, e, p, rest, reading, t);
      } else if s in e.writable {
        DownAfterSendTurn(g, e.up, p, reading, s, Script(e.sends, s), t);
        var (p1, left) := SendTurn(g, e.up, p, reading, s, Script(e.sends, s));
        DownAfterSendPhase(g, e, p1, rest, left, t);
      } else {
        DownAfterSendPhase(g, e, StaySending(p, s), rest, reading, t);
      }
    }
  }

  lemma DownAfterReadDone(g: Config, up: set<ServerId>, p: Pool, s: ServerId, t: ServerId)
    requires Shaped(g, p) && s < |p.servers| && p.servers[s].readreq.Some? && p.servers[s].wire != [] && IsDown(p, t)
    ensures IsDown(ReadDone(g, up, p, s).0, t)
  {
    var v := p.servers[s];
    var p1 := p.(log := p.log + [(v.readreq.value, v.wire[0])]);
    if v.sendreq == v.readreq {
      var p2 := WithServer(p1, s, v.(status := Disconnected, wire := []));
      SlotInRange(g, p, s);
      assert ServerShaped(|p.requests|, v);
      assert ReadLine(p2.servers[s]) == ReadLine(v) && SendLine(p2.servers[s]) == SendLine(v);
      DownAfterSlotNext(g, up, p2, s, t);
    }
  }

  lemma {:induction false} DownAfterReadTurn(g: Config, up: set<ServerId>, p: Pool, s: ServerId,
                                             outs: seq<ParseOutcome>,
                                             t: ServerId)
    requires Shaped(g, p) && s < |p.servers| && IsDown(p, t)
    ensures IsDown(ReadTurn(g, up, p, s, outs), t)
    decreases |outs|
  {
    hide Fail, ReadDone;
    if p.servers[s].readreq.Some? && outs != [] {
      match outs[0]
      case Malformed => DownAfterFail(g, up, p, s, ReadSide, t);
      case More(eof) => if eof { DownAfterFail(g, up, p, s, ReadSide, t); }
      case Again => DownAfterReadTurn(g, up, p, s, outs[1..], t);
      case Reply =>
        if p.servers[s].wire != [] {
          DownAfterReadDone(g, up, p, s, t);
          DownAfterReadTurn(g, up, ReadDone(g, up, p, s).0, s, outs[1..], t);
        }
    }
  }

  lemma {:induction false} DownAfterReadPhase(g: Config, e: Round, p: Pool, list: seq<ServerId>, t: ServerId)
    requires Shaped(g, p) && IdsOk(|p.servers|, list) && IsDown(p, t)
    ensures IsDown(ReadPhase(g, e, p, list), t)
    decreases |list|
  {
    if list != [] {
      var s, rest := list[0], list[1..];
      assert s in list && forall x :: x in rest ==> x in list;
      if p.servers[s].readreq.None? {
        DownAfterReadPhase(g, e, p, rest, t);
      } else if s in e.readable {
        DownAfterReadTurn(g, e.up, p, s, Script(e.parses, s), t);
        DownAfterReadPhase(g, e, ReadTurn(g, e.up, p, s, Script(e.parses, s)), rest, t);
      } else {
        DownAfterReadPhase(g, e, StayReading(p, s), rest, t);
      }
    }
  }

  lemma {:induction false} DownAfterDrop(g: Config, up: set<ServerId>, p: Pool, side: Side, ready: set<ServerId>,
                                         kept: seq<ServerId>, list: seq<ServerId>, other: seq<ServerId>, t: ServerId)
    requires Shaped(g, p) && IdsOk(|p.servers|, list) && IsDown(p, t)
    ensures IsDown(DropUnready(g, up, p, side, ready, kept, list, other).0, t)
    decreases |list|
  {
    if list != [] {
      var s, rest := list[0], list[1..];
      assert s in list && forall x :: x in rest ==> x in list;
      if s in ready {
        DownAfterDrop(g, up, p, side, ready, kept + [s], rest, other, t);
      } else {
        DownAfterFail(g, up, p, s, side, t);
        DownAfterDrop(g, up, Fail(g, up, p, s, side), side, ready, kept, rest, Without(other, s), t);
      }
    }
  }

  /** Nothing in a round brings a failed server back or gives it a request. */
  lemma DownAfterRound(g: Config, e: Round, p: Pool, t: ServerId)
    requires Shaped(g, p) && IsDown(p, t)
    ensures IsDown(Select(g, e, p), t)
  {
    var p0 := p.(sending := [], reading := []);
    var (p2, reading, sending) := (p0, p.reading, p.sending);
    if e.nothingReady {
      DownAfterDrop(g, e.up, p0, SendSide, e.writable, [], p.sending, p.reading, t);
      var (p1, s1, r1) := DropUnready(g, e.up, p0, SendSide, e.writable, [], p.sending, p.reading);
      DownAfterDrop(g, e.up, p1, ReadSide, e.readable, [], r1, s1, t);
      var (q, r2, s2) := DropUnready(g, e.up, p1, ReadSide, e.readable, [], r1, s1);
      p2, reading, sending := q, r2, s2;
    }
    DownAfterSendPhase(g, e, p2, sending, reading, t);
    var (p3, left) := SendPhase(g, e, p2, sending, reading);
    DownAfterReadPhase(g, e, p3, left, t);
  }

  /** Neither does anything in a run. */
  lemma {:induction false} DownForGood(g: Config, es: seq<Round>, p: Pool, t: ServerId)
    requires Shaped(g, p) && IsDown(p, t)
    ensures IsDown(Run(g, es, p), t)
    decreases |es|
  {
    if es != [] && Listing(p) {
      DownAfterRound(g, es[0], p, t);
      hide Select, Shaped, IsDown;
      DownForGood(g, es[1..], Select(g, es[0], p), t);
    }
  }

  // ---------------------------------------------------------------------------------------------------------
  // A select() that found nothing

  function Ready(list: seq<ServerId>, ready: set<ServerId>): seq<ServerId> {
    if list == [] then [] else (if list[0] in ready then [list[0]] else []) + Ready(list[1..], ready)
  }

  /** Of the listed servers those that are ready stay, in order, and each of the others is down and on neither list. */
  lemma {:induction false} DropUnreadyExact(g: Config, up: set<ServerId>, p: Pool, side: Side, ready: set<ServerId>,
                                            kept: seq<ServerId>, list: seq<ServerId>, other: seq<ServerId>)
    requires RoundOk(g, p, side, kept + list, other) && IdsOk(|p.servers|, list)
    ensures var (p', mine, rest) := DropUnready(g, up, p, side, ready, kept, list, other);
            && mine == kept + Ready(list, ready)
            && (forall s :: s in list && s !in ready ==> IsDown(p', s))
            && (forall s :: IsDown(p, s) ==> IsDown(p', s))
            && forall s :: s in rest <==> s in other && !(s in list && s !in ready)
    decreases |list|
  {
    if list == [] {
      assert kept + list == kept && kept + [] == kept;
    } else {
      var (s, tail) := (list[0], list[1..]);
      assert list == [s] + tail && s in list && forall x :: x in tail ==> x in list;
      if s in ready {
        assert kept + list == (kept + [s]) + tail;
        hide RoundOk, IsDown, Fail;
        DropUnreadyExact(g, up, p, side, ready, kept + [s], tail, other);
        Associative(kept, [s], Ready(tail, ready));
      } else {
        DropOneOk(g, up, p, side, kept, list, other);
        DropIsHard(g, up, p, side, kept + list, other, s);
        assert Shaped(g, p) && s in kept + list && [] + Ready(tail, ready) == Ready(tail, ready);
        forall t | IsDown(p, t) || t == s ensures IsDown(Fail(g, up, p, s, side), t) {
          DownAfterDeactivate(g, up, p, s, t);
        }
        hide RoundOk, IsDown, Fail, Shaped, Accounted, NewLive;
        DropUnreadyExact(g, up, Fail(g, up, p, s, side), side, ready, kept, tail, Without(other, s));
      }
    }
  }

  lemma DropIsHard(g: Config, up: set<ServerId>, p: Pool, side: Side, mine: seq<ServerId>, other: seq<ServerId>,
                   s: ServerId)
    requires RoundOk(g, p, side, mine, other) && s in mine
    ensures Shaped(g, p) && s < |p.servers| && Fail(g, up, p, s, side) == Deactivate(g, up, p, s)
  {
    ListedSlot(g, p, side, mine, other, s);
    RoundParts(g, p, side, mine, other);
    SlotFilled(side, p.servers[s]);
    var (w, r) := if side.SendSide? then (Set(mine), Set(other)) else (Set(other), Set(mine));
    hide RoundOk, PoolOk, Shaped;
    FailureIsHard(g, p, s, w, r);
  }

  /** After a round in which select() found nothing, or failed, every server that was listed for something its socket
      is not ready for is down. */
  lemma TimeoutDrops(g: Config, e: Round, p: Pool, s: ServerId)
    requires Settled(g, p) && e.nothingReady
    requires (s in p.sending && s !in e.writable) || (s in p.reading && s !in e.readable)
    ensures Shaped(g, p) && IsDown(Select(g, e, p), s)
  {
    SwitchOk(g, p);
    SettledShaped(g, p);
    var p0 := p.(sending := [], reading := []);
    hide PoolOk, Settled, RoundOk, ServersOk, Shaped, NoDuplicates, DropUnready, SendPhase, ReadPhase, Accounted,
         NewLive, IsDown;
    assert [] + p.sending == p.sending;
    DropUnreadyOk(g, e.up, p0, SendSide, e.writable, [], p.sending, p.reading);
    DropUnreadyExact(g, e.up, p0, SendSide, e.writable, [], p.sending, p.reading);
    var (p1, s1, r1) := DropUnready(g, e.up, p0, SendSide, e.writable, [], p.sending, p.reading);
    assert [] + r1 == r1;
    RoundTurned(g, p1, s1, r1);
    DropUnreadyExact(g, e.up, p1, ReadSide, e.readable, [], r1, s1);
    var (p2, r2, s2) := DropUnready(g, e.up, p1, ReadSide, e.readable, [], r1, s1);
    assert IsDown(p2, s);
    DownAfterSendPhase(g, e, p2, s2, r2, s);
    var (p3, left) := SendPhase(g, e, p2, s2, r2);
    DownAfterReadPhase(g, e, p3, left, s);
  }

  lemma SettledShaped(g: Config, p: Pool)
    requires Settled(g, p)
    ensures Shaped(g, p) && Shaped(g, p.(sending := [], reading := []))
  {
  }

  lemma RoundTurned(g: Config, p: Pool, sending: seq<ServerId>, reading: seq<ServerId>)
    requires RoundOk(g, p, SendSide, sending, reading)
    ensures RoundOk(g, p, ReadSide, reading, sending)
  {
  }

  // ---------------------------------------------------------------------------------------------------------
  // Sockets that are not ready

  predicate Unvisited(e: Round, p: Pool, s: ServerId) {
    !(s in p.sending && s in e.writable) && !(s in p.reading && s in e.readable)
  }

  lemma {:induction false} SendPhaseIdle(g: Config, e: Round, p: Pool, list: seq<ServerId>, reading: seq<ServerId>)
    requires Shaped(g, p) && IdsOk(|p.servers|, list) && NoDuplicates(p.sending + list)
    requires forall s :: s in list ==> s !in e.writable && p.servers[s].sendreq.Some?
    ensures SendPhase(g, e, p, list, reading) == (p.(sending := p.sending + list), reading)
    decreases |list|
  {
    if list == [] {
      assert p.sending + list == p.sending;
    } else {
      var s, rest := list[0], list[1..];
      assert s in list && forall x :: x in rest ==> x in list;
      assert p.sending + list == (p.sending + [s]) + rest;
      ListedLater(p.sending, list);
      SendPhaseIdle(g, e, StaySending(p, s), rest, reading);
    }
  }

  lemma ListedLater(before: seq<ServerId>, list: seq<ServerId>)
    requires list != [] && NoDuplicates(before + list)
    ensures PushUnique(before, list[0]) == before + [list[0]]
  {
    assert (before + list)[|before|] == list[0];
    assert forall i :: 0 <= i < |before| ==> (before + list)[i] == before[i];
  }

  lemma {:induction false} ReadPhaseIdle(g: Config, e: Round, p: Pool, list: seq<ServerId>)
    requires Shaped(g, p) && IdsOk(|p.servers|, list) && NoDuplicates(p.reading + list)
    requires forall s :: s in list ==> s !in e.readable && p.servers[s].readreq.Some?
    ensures ReadPhase(g, e, p, list) == p.(reading := p.reading + list)
    decreases |list|
  {
    if list == [] {
      assert p.reading + list == p.reading;
    } else {
      var s, rest := list[0], list[1..];
      assert s in list && forall x :: x in rest ==> x in list;
      assert p.reading + list == (p.reading + [s]) + rest;
      ListedLater(p.reading, list);
      ReadPhaseIdle(g, e, StayReading(p, s), rest);
    }
  }

  /** A round in which no listed server's socket is ready, and select() does not report a failure, changes nothing. */
  lemma IdleRound(g: Config, e: Round, p: Pool)
    requires Settled(g, p) && !e.nothingReady && forall s :: 0 <= s < g.numServers ==> Unvisited(e, p, s)
    ensures Shaped(g, p) && Select(g, e, p) == p
  {
    SettledShaped(g, p);
    SwitchOk(g, p);
    var p0 := p.(sending := [], reading := []);
    assert [] + p.sending == p.sending && [] + p.reading == p.reading;
    RoundTurned(g, p0, p.sending, p.reading);
    forall s | s in p.sending ensures s !in e.writable && p0.servers[s].sendreq.Some? {
      ListedSlot(g, p0, SendSide, p.sending, p.reading, s);
      assert Unvisited(e, p, s);
    }
    forall s | s in p.reading ensures s !in e.readable && p0.servers[s].readreq.Some? {
      ListedSlot(g, p0, ReadSide, p.reading, p.sending, s);
      assert Unvisited(e, p, s);
    }
    SendPhaseIdle(g, e, p0, p.sending, p.reading);
    ReadPhaseIdle(g, e, p0.(sending := p.sending), p.reading);
  }
}
