/** What a round is made of: a server's turn to send, and a reply that is complete. */
module PoolTurns {
  import opened Basics
  import opened Wrappers
  import opened Sequences
  import opened Routing
  import opened PoolModel
  import opened PoolInvariant
  import opened PoolFailover
  import opened PoolRound
  import opened PoolSteps

  /** A connection is there at the end only if it was before or the server accepts connections. */
  ghost predicate NewLive(up: set<ServerId>, p: Pool, p': Pool) {
    |p'.servers| == |p.servers|
    && forall s :: 0 <= s < |p.servers| && p'.servers[s].status.Connected? ==> p.servers[s].status.Connected? || s in up
  }

  /** Between `p` and `p'`, the request's parser read the request's own reply. */
  ghost predicate Answered(p: Pool, p': Pool, x: RequestId) {
    exists k :: |p.log| <= k < |p'.log| && p'.log[k] == (x, x)
  }

  /** No request is lost or doubled on the way from `p` to `p'`, and one that is free at the end either was free
      before, or completed, or could not be failed over any more. */
  ghost predicate Accounted(g: Config, p: Pool, p': Pool) {
    && |p'.servers| == |p.servers| && |p'.requests| == |p.requests| && p.log <= p'.log
    && (forall x :: Tracked(p', x) <==> Tracked(p, x))
    && (forall x :: x in p.free ==> x in p'.free)
    && (forall x :: x in p.free && x < |p.requests| ==> p'.requests[x] == p.requests[x])
    && (forall x :: x in p'.free ==> x in p.free || GaveUp(g, p', x) || Answered(p, p', x))
  }

  lemma AccountedRefl(g: Config, p: Pool)
    ensures Accounted(g, p, p)
  {
  }

  lemma AccountedTrans(g: Config, p: Pool, p1: Pool, p2: Pool)
    requires Accounted(g, p, p1) && Accounted(g, p1, p2)
    ensures Accounted(g, p, p2)
  {
    forall x | x in p2.free ensures x in p.free || GaveUp(g, p2, x) || Answered(p, p2, x) {
      if x in p1.free && x !in p.free {
        assert GaveUp(g, p1, x) || Answered(p, p1, x);
        if Answered(p, p1, x) {
          var k :| |p.log| <= k < |p1.log| && p1.log[k] == (x, x);
          assert p2.log[k] == (x, x);
        }
      } else if x !in p.free && Answered(p1, p2, x) {
        var k :| |p1.log| <= k < |p2.log| && p2.log[k] == (x, x);
        assert |p.log| <= k;
      }
    }
  }

  /** What a step of a round gives: the invariant, the books, and no connection out of nowhere. */
  ghost predicate StepOk(g: Config, up: set<ServerId>, p: Pool, p': Pool, toSend: set<ServerId>, toRead: set<ServerId>)
  {
    PoolOk(g, p', toSend, toRead) && Accounted(g, p, p') && NewLive(up, p, p')
  }

  // ---------------------------------------------------------------------------------------------------------
  // One server changes

  lemma ReplaceServer(p: Pool, p': Pool, s: ServerId)
    requires ServersOk(p) && Exclusive(p) && s < |p.servers| == |p'.servers| && |p'.requests| == |p.requests|
    requires p'.servers == p.servers[s := p'.servers[s]] && ServerOk(p'.requests, s, p'.servers[s])
    requires forall x :: 0 <= x < |p.requests| && !On(p, s, x) ==> p'.requests[x] == p.requests[x]
    ensures ServersOk(p')
  {
    forall t | 0 <= t < |p'.servers| ensures ServerOk(p'.requests, t, p'.servers[t]) {
      if t != s {
        assert ServerOk(p.requests, t, p.servers[t]);
        forall x | x in ReadLine(p.servers[t]) ensures x < |p.requests| && p'.requests[x] == p.requests[x] {
          assert On(p, t, x);
        }
        ServerOkFrame(p.requests, p'.requests, t, p.servers[t]);
      }
    }
  }

  lemma SamePlaces(p: Pool, p': Pool, s: ServerId)
    requires Exclusive(p) && s < |p.servers| == |p'.servers| && p'.free == p.free
    requires p'.servers == p.servers[s := p'.servers[s]] && ReadLine(p'.servers[s]) == ReadLine(p.servers[s])
    ensures Exclusive(p')
    ensures forall x :: Tracked(p', x) <==> Tracked(p, x)
    ensures forall t, x :: On(p', t, x) <==> On(p, t, x)
  {
    assert forall t, x :: On(p', t, x) <==> On(p, t, x);
  }

  /** The read request of `s` moves to the free list. */
  lemma ToFree(p: Pool, p': Pool, s: ServerId)
    requires Exclusive(p) && s < |p.servers| == |p'.servers| && ReadLine(p.servers[s]) != []
    requires NoDuplicates(ReadLine(p.servers[s]))
    requires p'.servers == p.servers[s := p'.servers[s]] && ReadLine(p'.servers[s]) == ReadLine(p.servers[s])[1..]
    requires p'.free == PushUnique(p.free, ReadLine(p.servers[s])[0])
    ensures Exclusive(p')
    ensures forall x :: Tracked(p', x) <==> Tracked(p, x)
  {
    var line := ReadLine(p.servers[s]);
    var r := line[0];
    assert On(p, s, r);
    TailUnique(line);
    assert line == [r] + line[1..];
    assert forall t, x :: On(p', t, x) <==> On(p, t, x) && !(t == s && x == r);
    forall x ensures Tracked(p', x) <==> Tracked(p, x) {
      if Tracked(p, x) && x !in p'.free {
        var t :| On(p, t, x);
        assert On(p', t, x);
      }
    }
  }

  /** The slot of `s` changes while `s` is neither listed nor waiting. */
  lemma ListeningVisit(p: Pool, p': Pool, side: Side, waiting: set<ServerId>, s: ServerId)
    requires Listening(p, side, waiting + {s}) && s !in waiting && s < |p.servers| == |p'.servers|
    requires p'.servers == p.servers[s := p'.servers[s]] && ListOf(side, p') == ListOf(side, p)
    requires !p'.servers[s].status.Failed?
    ensures Listening(p', side, if SlotOf(side, p'.servers[s]).Some? then waiting + {s} else waiting)
  {
  }

  /** The other side's slot of `s` stays as filled as it was. */
  lemma ListeningSame(p: Pool, p': Pool, side: Side, waiting: set<ServerId>, s: ServerId)
    requires Listening(p, side, waiting) && s < |p.servers| == |p'.servers|
    requires p'.servers == p.servers[s := p'.servers[s]] && ListOf(side, p') == ListOf(side, p)
    requires p'.servers[s].status.Failed? == p.servers[s].status.Failed?
    requires SlotOf(side, p'.servers[s]).Some? == SlotOf(side, p.servers[s]).Some?
    ensures Listening(p', side, waiting)
  {
  }

  /** The visited server goes back on the list. */
  lemma StayOk(g: Config, p: Pool, side: Side, s: ServerId, toSend: set<ServerId>, toRead: set<ServerId>)
    requires s < |p.servers| && SlotOf(side, p.servers[s]).Some?
    requires side.SendSide? ==> s !in toSend && PoolOk(g, p, toSend + {s}, toRead)
    requires side.ReadSide? ==> s !in toRead && PoolOk(g, p, toSend, toRead + {s})
    ensures var p' := if side.SendSide? then StaySending(p, s) else StayReading(p, s);
            PoolOk(g, p', toSend, toRead) && Accounted(g, p, p') && p'.servers == p.servers
  {
    var p' := if side.SendSide? then StaySending(p, s) else StayReading(p, s);
    assert forall t, x :: On(p', t, x) <==> On(p, t, x);
    assert ServersOk(p');
  }

  /** A server that went down no longer has to be visited. */
  lemma SkipFailed(g: Config, p: Pool, s: ServerId, toSend: set<ServerId>, toRead: set<ServerId>)
    requires PoolOk(g, p, toSend, toRead) && s < |p.servers| && p.servers[s].status.Failed?
    ensures PoolOk(g, p, toSend - {s}, toRead - {s})
    ensures PoolOk(g, p, toSend - {s}, toRead)
  {
  }

  /** A filled slot means a live stream, so mmc_server_failure never asks for a retry. */
  lemma FailureIsHard(g: Config, p: Pool, s: ServerId, toSend: set<ServerId>, toRead: set<ServerId>)
    requires PoolOk(g, p, toSend, toRead) && s < |p.servers|
    requires p.servers[s].sendreq.Some? || p.servers[s].readreq.Some?
    ensures ServerFailure(p.servers[s].status) == HardFailure
  {
    var v := p.servers[s];
    assert ServerOk(p.requests, s, v);
    assert v.readreq.Some? ==> ReadLine(v)[0] == v.readreq.value;
    assert v.sendreq.Some? ==> SendLine(v)[0] == v.sendreq.value;
  }

  lemma FailOk(g: Config, up: set<ServerId>, p: Pool, s: ServerId, side: Side, toSend: set<ServerId>,
               toRead: set<ServerId>)
    requires PoolOk(g, p, toSend, toRead) && s < |p.servers|
    requires p.servers[s].sendreq.Some? || p.servers[s].readreq.Some?
    ensures var p' := Fail(g, up, p, s, side);
            && StepOk(g, up, p, p', toSend, toRead) && p'.servers[s].status.Failed?
            && forall t :: 0 <= t < |p.servers| && t != s ==> Undisturbed(p, p', t)
  {
    FailureIsHard(g, p, s, toSend, toRead);
    DeactivateOk(g, up, p, s, toSend, toRead);
    EvictedOk(g, p, s, toSend, toRead);
    CarriedAccounted(g, up, p, Deactivate(g, up, p, s), Evicted(p.servers[s]));
  }

  lemma CarriedAccounted(g: Config, up: set<ServerId>, p: Pool, p': Pool, ids: seq<RequestId>)
    requires Carried(g, up, p, p', ids)
    requires forall x :: x in ids ==> Tracked(p, x) && x !in p.free
    ensures Accounted(g, p, p') && NewLive(up, p, p')
  {
  }

  // ---------------------------------------------------------------------------------------------------------
  // Sending

  ghost predicate SlotIs(p: Pool, s: ServerId, r: RequestId) {
    s < |p.servers| && r < |p.requests| && p.servers[s].sendreq == Some(r)
  }

  lemma SlotOn(g: Config, p: Pool, s: ServerId, r: RequestId, toSend: set<ServerId>, toRead: set<ServerId>)
    requires PoolOk(g, p, toSend, toRead) && SlotIs(p, s, r)
    ensures Sending(p.requests, s, p.servers[s], r) && p.servers[s].status.Connected? && On(p, s, r)
    ensures forall x :: x in p.servers[s].sendqueue ==> On(p, s, x) && x != r
  {
    assert ServerOk(p.requests, s, p.servers[s]);
    SendHead(p.requests, s, p.servers[s], r);
  }

  lemma PartOk(g: Config, up: set<ServerId>, p: Pool, s: ServerId, r: RequestId, n: nat,
               toSend: set<ServerId>, toRead: set<ServerId>)
    requires PoolOk(g, p, toSend, toRead) && SlotIs(p, s, r)
    requires p.requests[r].idx + Written(p.requests[r], n) < |p.requests[r].sendbuf|
    ensures StepOk(g, up, p, Write(p, s, r, n), toSend, toRead) && SlotIs(Write(p, s, r, n), s, r)
  {
    var p' := Write(p, s, r, n);
    SlotOn(g, p, s, r, toSend, toRead);
    PartShape(g, p, s, r, n);
    hide Write, Shaped, ServersOk, ServerOk, LengthsOk, Exclusive, Listening, Tracked, On, Accounted, Sending;
    ReplaceServer(p, p', s);
    SamePlaces(p, p', s);
    ListeningSame(p, p', SendSide, toSend, s);
    ListeningSame(p, p', ReadSide, toRead, s);
    LengthsKept(p, p');
    FullAccounted(g, p, p', s);
  }

  lemma PartShape(g: Config, p: Pool, s: ServerId, r: RequestId, n: nat)
    requires Shaped(g, p) && SlotIs(p, s, r) && Sending(p.requests, s, p.servers[s], r)
    requires p.requests[r].idx + Written(p.requests[r], n) < |p.requests[r].sendbuf|
    ensures var p', v := Write(p, s, r, n), p.servers[s];
            && Shaped(g, p') && |p'.requests| == |p.requests| && |p'.servers| == |p.servers|
            && p'.servers == p.servers[s := p'.servers[s]]
            && ServerOk(p'.requests, s, p'.servers[s]) && ReadLine(p'.servers[s]) == ReadLine(v)
            && p'.servers[s].sendreq == v.sendreq && p'.servers[s].readreq == v.readreq
            && p'.servers[s].status == v.status
            && (forall x :: 0 <= x < |p.requests| ==>
                  p'.requests[x].sendbuf == p.requests[x].sendbuf && (x != r ==> p'.requests[x] == p.requests[x]))
            && p'.free == p.free && p'.log == p.log && p'.sending == p.sending && p'.reading == p.reading
  {
    WriteShaped(g, p, s, r, n);
    PartServerOk(p.requests, s, p.servers[s], r, n);
    hide ServerOk, Shaped, Sending;
  }

  lemma FullShape(g: Config, p: Pool, s: ServerId, r: RequestId, n: nat, toSend: set<ServerId>, toRead: set<ServerId>)
    requires PoolOk(g, p, toSend, toRead) && SlotIs(p, s, r)
    requires |p.requests[r].sendbuf| <= p.requests[r].idx + Written(p.requests[r], n)
    ensures IdsOk(|p.requests|, p.servers[s].sendqueue)
    ensures var p', v := NextSend(Write(p, s, r, n), s), p.servers[s];
            && Shaped(g, p') && |p'.requests| == |p.requests|
            && p'.servers == p.servers[s := p'.servers[s]]
            && SlotMoved(p.requests, p'.requests, s, v, p'.servers[s])
            && p'.servers[s].readreq == v.readreq && p'.servers[s].readqueue == v.readqueue
            && p'.servers[s].status == v.status
            && p'.servers[s].wire == (if p.requests[r].idx == 0 then v.wire + [r] else v.wire)
            && (r !in v.sendqueue ==> p'.requests[r] == p.requests[r].(idx := |p.requests[r].sendbuf|))
            && (forall x :: 0 <= x < |p.requests| && x != r && x !in v.sendqueue ==> p'.requests[x] == p.requests[x])
            && p'.free == p.free && p'.log == p.log && p'.sending == p.sending && p'.reading == p.reading
  {
    SlotOn(g, p, s, r, toSend, toRead);
    assert Shaped(g, p) && p.requests[r].idx < |p.requests[r].sendbuf|;
    hide PoolOk, Shaped, Sending, ServerOk, On, Write, NextSend;
    SlotInRange(g, p, s);
    WriteShaped(g, p, s, r, n);
    WriteFields(p, s, r, n);
    NextSendShaped(g, Write(p, s, r, n), s);
    NextFields(Write(p, s, r, n), s);
    var v, p1 := p.servers[s], Write(p, s, r, n);
    assert r !in v.sendqueue;
    MovedTwice(p.requests, p1.requests, NextSend(p1, s).requests, s, v, NextSend(p1, s).servers[s], r);
  }

  /** The records after a write that completes a request, and after the next one moved up. */
  lemma MovedTwice(qs: seq<Request>, qs1: seq<Request>, qs': seq<Request>, s: ServerId, v: Server, v': Server,
                   r: RequestId)
    requires r < |qs| && r !in v.sendqueue && |qs'| == |qs| && qs1 == qs[r := qs[r].(idx := |qs[r].sendbuf|)]
    requires v'.sendreq == (if v.sendqueue == [] then None else Some(v.sendqueue[0]))
    requires v'.sendqueue == (if v.sendqueue == [] then [] else v.sendqueue[1..])
    requires forall x :: 0 <= x < |qs| ==>
               qs'[x] == if v.sendqueue != [] && x == v.sendqueue[0] then qs1[x].(io := Some(s)) else qs1[x]
    ensures SlotMoved(qs, qs', s, v, v') && qs'[r] == qs[r].(idx := |qs[r].sendbuf|)
    ensures forall x :: 0 <= x < |qs| && x != r && x !in v.sendqueue ==> qs'[x] == qs[x]
  {
    assert v.sendqueue != [] ==> v.sendqueue[0] in v.sendqueue;
  }

  lemma WriteFields(p: Pool, s: ServerId, r: RequestId, n: nat)
    requires SlotIs(p, s, r) && p.requests[r].idx < |p.requests[r].sendbuf|
    ensures var (p', v, q) := (Write(p, s, r, n), p.servers[s], p.requests[r]);
            var idx := if q.idx + n < |q.sendbuf| then q.idx + n else |q.sendbuf|;
            && p'.requests == p.requests[r := q.(idx := idx)]
            && p'.servers == p.servers[s := v.(wire := if q.idx == 0 < n then v.wire + [r] else v.wire)]
            && p'.free == p.free && p'.log == p.log && p'.sending == p.sending && p'.reading == p.reading
  {
  }

  lemma NextFields(p: Pool, s: ServerId)
    requires s < |p.servers| && IdsOk(|p.requests|, p.servers[s].sendqueue)
    ensures var (p', v) := (NextSend(p, s), p.servers[s]);
            && p'.servers == p.servers[s := p'.servers[s]]
            && p'.servers[s].sendreq == (if v.sendqueue == [] then None else Some(v.sendqueue[0]))
            && p'.servers[s].sendqueue == (if v.sendqueue == [] then [] else v.sendqueue[1..])
            && p'.servers[s].readreq == v.readreq && p'.servers[s].readqueue == v.readqueue
            && p'.servers[s].status == (if v.sendqueue == [] then v.status else Connected)
            && p'.servers[s].wire == v.wire && |p'.requests| == |p.requests|
            && (forall x :: 0 <= x < |p.requests| ==>
                  p'.requests[x] == if v.sendqueue != [] && x == v.sendqueue[0] then p.requests[x].(io := Some(s))
                                    else p.requests[x])
            && p'.free == p.free && p'.log == p.log && p'.sending == p.sending && p'.reading == p.reading
  {
    var v := p.servers[s];
    assert v.sendqueue != [] ==> v.sendqueue[0] in v.sendqueue;
  }

  lemma LengthsKept(p: Pool, p': Pool)
    requires LengthsOk(p) && |p'.requests| == |p.requests|
    requires forall x :: 0 <= x < |p.requests| ==> p'.requests[x].sendbuf == p.requests[x].sendbuf
    ensures LengthsOk(p')
  {
  }

  lemma WriteLengths(p: Pool, s: ServerId, r: RequestId, n: nat)
    requires s < |p.servers| && r < |p.requests| && IdsOk(|p.requests|, p.servers[s].sendqueue)
    ensures var p' := NextSend(Write(p, s, r, n), s);
            && |p'.requests| == |p.requests|
            && forall x :: 0 <= x < |p.requests| ==> p'.requests[x].sendbuf == p.requests[x].sendbuf
  {
    var v := p.servers[s];
    assert v.sendqueue != [] ==> v.sendqueue[0] in v.sendqueue;
  }

  lemma FullKeeps(g: Config, p: Pool, s: ServerId, r: RequestId, n: nat, toSend: set<ServerId>, toRead: set<ServerId>)
    requires PoolOk(g, p, toSend, toRead) && SlotIs(p, s, r)
    requires |p.requests[r].sendbuf| <= p.requests[r].idx + Written(p.requests[r], n)
    ensures IdsOk(|p.requests|, p.servers[s].sendqueue)
    ensures var p', v := NextSend(Write(p, s, r, n), s), p.servers[s];
            && Shaped(g, p') && |p'.requests| == |p.requests| && |p'.servers| == |p.servers|
            && p'.servers == p.servers[s := p'.servers[s]]
            && ServerOk(p'.requests, s, p'.servers[s]) && ReadLine(p'.servers[s]) == ReadLine(v)
            && p'.servers[s].readreq == v.readreq && p'.servers[s].status == v.status && v.status.Connected?
            && (forall x :: 0 <= x < |p.requests| && !On(p, s, x) ==> p'.requests[x] == p.requests[x])
            && p'.free == p.free && p'.log == p.log && p'.sending == p.sending && p'.reading == p.reading
  {
    FullShape(g, p, s, r, n, toSend, toRead);
    SlotOn(g, p, s, r, toSend, toRead);
    assert LengthsPositive(p.requests);
    hide PoolOk, NextSend, Write, SlotMoved, IdsOk, ServerOk, Sending, LengthsPositive, On;
    var p' := NextSend(Write(p, s, r, n), s);
    FullServerOk(p.requests, s, p.servers[s], r, p'.servers[s], p'.requests);
  }

  lemma FullOk(g: Config, up: set<ServerId>, p: Pool, s: ServerId, r: RequestId, n: nat,
               toSend: set<ServerId>, toRead: set<ServerId>)
    requires s !in toSend && PoolOk(g, p, toSend + {s}, toRead) && SlotIs(p, s, r)
    requires |p.requests[r].sendbuf| <= p.requests[r].idx + Written(p.requests[r], n)
    ensures IdsOk(|p.requests|, p.servers[s].sendqueue)
    ensures var p' := NextSend(Write(p, s, r, n), s);
            StepOk(g, up, p, p', if p'.servers[s].sendreq.Some? then toSend + {s} else toSend, toRead)
  {
    FullKeeps(g, p, s, r, n, toSend + {s}, toRead);
    WriteLengths(p, s, r, n);
    hide PoolOk, Shaped, NextSend, Write, ServerOk, On;
    SameLineOk(g, up, p, NextSend(Write(p, s, r, n), s), s, toSend, toRead);
  }

  /** A server whose read line stays as it is, in step again, while its send slot was visited. */
  lemma SameLineOk(g: Config, up: set<ServerId>, p: Pool, p': Pool, s: ServerId,
                   toSend: set<ServerId>, toRead: set<ServerId>)
    requires PoolOk(g, p, toSend + {s}, toRead) && s !in toSend
    requires Shaped(g, p') && |p'.requests| == |p.requests| && s < |p.servers| == |p'.servers|
    requires p'.servers == p.servers[s := p'.servers[s]]
    requires ServerOk(p'.requests, s, p'.servers[s]) && ReadLine(p'.servers[s]) == ReadLine(p.servers[s])
    requires p'.servers[s].readreq == p.servers[s].readreq
    requires p'.servers[s].status == p.servers[s].status && p.servers[s].status.Connected?
    requires forall x :: 0 <= x < |p.requests| && !On(p, s, x) ==> p'.requests[x] == p.requests[x]
    requires forall x :: 0 <= x < |p.requests| ==> p'.requests[x].sendbuf == p.requests[x].sendbuf
    requires p'.free == p.free && p'.log == p.log && p'.sending == p.sending && p'.reading == p.reading
    ensures StepOk(g, up, p, p', if p'.servers[s].sendreq.Some? then toSend + {s} else toSend, toRead)
  {
    hide Shaped, ServersOk, ServerOk, LengthsOk, Exclusive, Listening, Tracked, Accounted, On;
    ReplaceServer(p, p', s);
    SamePlaces(p, p', s);
    ListeningVisit(p, p', SendSide, toSend, s);
    ListeningSame(p, p', ReadSide, toRead, s);
    LengthsKept(p, p');
    FullAccounted(g, p, p', s);
  }

  /** Only requests on `s` changed, and no request changed its place. */
  lemma FullAccounted(g: Config, p: Pool, p': Pool, s: ServerId)
    requires Exclusive(p) && |p'.servers| == |p.servers| && |p'.requests| == |p.requests| && p'.log == p.log
    requires p'.free == p.free && forall x :: Tracked(p', x) <==> Tracked(p, x)
    requires forall x :: 0 <= x < |p.requests| && !On(p, s, x) ==> p'.requests[x] == p.requests[x]
    ensures Accounted(g, p, p')
  {
  }

  // ---------------------------------------------------------------------------------------------------------
  // A server's turn to send

  function Set(list: seq<ServerId>): set<ServerId> { set s | s in list }

  lemma SetWithout(list: seq<ServerId>, s: ServerId)
    ensures Set(Without(list, s)) == Set(list) - {s}
  {
  }

  lemma {:induction false} SendTurnOk(g: Config, up: set<ServerId>, p: Pool, reading: seq<ServerId>, s: ServerId,
                                      outs: seq<SendOutcome>, toSend: set<ServerId>)
    requires s < |p.servers| && s !in toSend
    requires PoolOk(g, p, if p.servers[s].sendreq.Some? then toSend + {s} else toSend, Set(reading))
    ensures var (p', left) := SendTurn(g, up, p, reading, s, outs);
            StepOk(g, up, p, p', toSend, Set(left)) && (NoDuplicates(reading) ==> NoDuplicates(left))
    decreases |outs|
  {
    SlotInRange(g, p, s);
    hide ServersOk, LengthsOk, Exclusive, Awake, Attributed, Accounted, Write, NextSend;
    match p.servers[s].sendreq
    case None => AccountedRefl(g, p);
    case Some(x) =>
      if outs == [] || outs[0].WouldBlock? {
        StayOk(g, p, SendSide, s, toSend, Set(reading));
      } else if outs[0].Broken? {
        FailureIsHard(g, p, s, toSend + {s}, Set(reading));
        FailOk(g, up, p, s, SendSide, toSend + {s}, Set(reading));
        SkipFailed(g, Fail(g, up, p, s, SendSide), s, toSend + {s}, Set(reading));
        SetWithout(reading, s);
        assert toSend + {s} - {s} == toSend;
      } else {
        var n := outs[0].n;
        WriteShaped(g, p, s, x, n);
        var p1 := Write(p, s, x, n);
        if p1.requests[x].idx < |p1.requests[x].sendbuf| {
          PartOk(g, up, p, s, x, n, toSend + {s}, Set(reading));
          StayOk(g, p1, SendSide, s, toSend, Set(reading));
          AccountedTrans(g, p, p1, StaySending(p1, s));
        } else {
          FullOk(g, up, p, s, x, n, toSend, Set(reading));
          NextSendShaped(g, p1, s);
          var p2 := NextSend(p1, s);
          SendTurnOk(g, up, p2, reading, s, outs[1..], toSend);
          AccountedTrans(g, p, p2, SendTurn(g, up, p2, reading, s, outs[1..]).0);
        }
      }
  }

  lemma SetTail(list: seq<ServerId>)
    requires list != [] && NoDuplicates(list)
    ensures Set(list) == Set(list[1..]) + {list[0]} && list[0] !in Set(list[1..]) && NoDuplicates(list[1..])
    ensures Set(list) - {list[0]} == Set(list[1..])
  {
    assert list == [list[0]] + list[1..];
    assert forall x :: x in list <==> x == list[0] || x in list[1..];
    assert list[0] !in list[1..];
  }

  /** Only a server that failed can be waiting with an empty slot. */
  lemma EmptyIsFailed(g: Config, p: Pool, side: Side, s: ServerId, toSend: set<ServerId>, toRead: set<ServerId>)
    requires PoolOk(g, p, toSend, toRead) && s < |p.servers| && SlotOf(side, p.servers[s]).None?
    requires s in if side.SendSide? then toSend else toRead
    ensures p.servers[s].status.Failed?
  {
  }

  lemma {:induction false} SendPhaseOk(g: Config, e: Round, p: Pool, list: seq<ServerId>, reading: seq<ServerId>)
    requires NoDuplicates(list) && IdsOk(|p.servers|, list) && NoDuplicates(reading)
    requires PoolOk(g, p, Set(list), Set(reading))
    ensures var (p', left) := SendPhase(g, e, p, list, reading);
            StepOk(g, e.up, p, p', {}, Set(left)) && NoDuplicates(left)
    decreases |list|
  {
    if list == [] {
      AccountedRefl(g, p);
      assert Set(list) == {};
    } else {
      var s, rest := list[0], list[1..];
      assert s in list && forall x :: x in rest ==> x in list;
      SetTail(list);
      if p.servers[s].sendreq.None? {
        EmptyIsFailed(g, p, SendSide, s, Set(list), Set(reading));
        SkipFailed(g, p, s, Set(list), Set(reading));
        SendPhaseOk(g, e, p, rest, reading);
      } else if s in e.writable {
        SendTurnOk(g, e.up, p, reading, s, Script(e.sends, s), Set(rest));
        var (p1, left) := SendTurn(g, e.up, p, reading, s, Script(e.sends, s));
        SendPhaseOk(g, e, p1, rest, left);
        AccountedTrans(g, p, p1, SendPhase(g, e, p1, rest, left).0);
      } else {
        StayOk(g, p, SendSide, s, Set(rest), Set(reading));
        var p1 := StaySending(p, s);
        SendPhaseOk(g, e, p1, rest, reading);
        AccountedTrans(g, p, p1, SendPhase(g, e, p1, rest, reading).0);
      }
    }
  }

  // ---------------------------------------------------------------------------------------------------------
  // Reading

  ghost predicate Reading(g: Config, p: Pool, s: ServerId, toRead: set<ServerId>) {
    && PoolOk(g, p, {}, toRead + {s}) && s !in toRead
    && s < |p.servers| && p.servers[s].readreq.Some? && p.servers[s].wire != []
  }

  /** Everything about a completed reply except what is in the send slot and queue. */
  ghost predicate Completed(p: Pool, p': Pool, s: ServerId, r: RequestId) {
    && s < |p.servers| == |p'.servers| && |p'.requests| == |p.requests|
    && p'.servers == p.servers[s := p'.servers[s]]
    && ReadLine(p.servers[s]) != [] && ReadLine(p.servers[s])[0] == r
    && ReadLine(p'.servers[s]) == ReadLine(p.servers[s])[1..]
    && p'.free == PushUnique(p.free, r)
    && p'.log == p.log + [(r, r)]
    && p'.reading == p.reading
    && (forall x :: 0 <= x < |p.requests| ==>
          && p'.requests[x].sendbuf == p.requests[x].sendbuf && p'.requests[x].idx == p.requests[x].idx
          && (!On(p, s, x) ==> p'.requests[x] == p.requests[x]))
  }

  lemma CompletedOk(g: Config, p: Pool, p': Pool, s: ServerId, r: RequestId, toRead: set<ServerId>)
    requires PoolOk(g, p, {}, toRead + {s}) && s !in toRead && Completed(p, p', s, r)
    requires ServerOk(p'.requests, s, p'.servers[s]) && Shaped(g, p') && Listening(p', SendSide, {})
    requires !p'.servers[s].status.Failed?
    ensures PoolOk(g, p', {}, if p'.servers[s].readreq.Some? then toRead + {s} else toRead)
    ensures Accounted(g, p, p')
  {
    assert ServerOk(p.requests, s, p.servers[s]);
    ReplaceServer(p, p', s);
    ToFree(p, p', s);
    ListeningVisit(p, p', ReadSide, toRead, s);
    LengthsKept(p, p');
    CompletedAccounted(g, p, p', s, r);
  }

  lemma CompletedAccounted(g: Config, p: Pool, p': Pool, s: ServerId, r: RequestId)
    requires Exclusive(p) && Completed(p, p', s, r) && forall x :: Tracked(p', x) <==> Tracked(p, x)
    ensures Accounted(g, p, p')
  {
    assert p'.log[|p.log|] == (r, r);
  }

  /** A reply ends before its request is fully sent, another request waits to be sent, and the server does not
      accept the new connection. */
  predicate LostReconnect(up: set<ServerId>, p: Pool, s: ServerId)
    requires s < |p.servers|
  {
    p.servers[s].sendreq == p.servers[s].readreq && p.servers[s].sendqueue != [] && s !in up
  }

  lemma ReadingServer(g: Config, p: Pool, s: ServerId, toRead: set<ServerId>)
    requires Reading(g, p, s, toRead)
    ensures ServerOk(p.requests, s, p.servers[s]) && p.servers[s].status.Connected?
    ensures ReadLine(p.servers[s]) != [] && ReadLine(p.servers[s])[0] == p.servers[s].readreq.value
    ensures p.servers[s].wire[0] == p.servers[s].readreq.value
    ensures p.servers[s].sendreq == p.servers[s].readreq ==> s in p.sending
    ensures forall x :: x in p.servers[s].sendqueue ==> On(p, s, x)
  {
    var v := p.servers[s];
    assert ServerOk(p.requests, s, v);
    ReplyBelongs(p.requests, s, v);
    assert forall x :: x in SendLine(v) ==> x in ReadLine(v);
  }

  lemma AnsweredShape(g: Config, up: set<ServerId>, p: Pool, s: ServerId, toRead: set<ServerId>)
    requires Reading(g, p, s, toRead) && p.servers[s].sendreq != p.servers[s].readreq
    ensures var (p', done) := ReadDone(g, up, p, s);
            && done == p.servers[s].readreq && Completed(p, p', s, p.servers[s].readreq.value)
            && ServerOk(p'.requests, s, p'.servers[s]) && p'.requests == p.requests && p'.sending == p.sending
            && p'.servers[s].sendreq == p.servers[s].sendreq && p'.servers[s].status == p.servers[s].status
  {
    ReadingServer(g, p, s, toRead);
    var p' := ReadDone(g, up, p, s).0;
    AnsweredServerOk(p.requests, s, p.servers[s], p'.servers[s]);
  }

  /** What dropping the stream and completing the request write, field by field. */
  lemma DroppedFields(g: Config, up: set<ServerId>, p: Pool, s: ServerId)
    requires Shaped(g, p) && s < |p.servers| && p.servers[s].readreq.Some? && p.servers[s].wire != []
    requires p.servers[s].sendreq == p.servers[s].readreq && !LostReconnect(up, p, s)
    ensures p.servers[s].sendqueue != [] ==> p.servers[s].sendqueue[0] < |p.requests|
    ensures var (p', done) := ReadDone(g, up, p, s); var v, v' := p.servers[s], p'.servers[s];
            && done == v.readreq && p'.servers == p.servers[s := v']
            && p'.requests == (if v.sendqueue == [] then p.requests
                               else p.requests[v.sendqueue[0] := p.requests[v.sendqueue[0]].(io := Some(s))])
            && p'.free == PushUnique(p.free, v.readreq.value)
            && p'.log == p.log + [(v.readreq.value, v.wire[0])] && p'.reading == p.reading
            && p'.sending == (if v.sendqueue == [] then Without(p.sending, s) else p.sending)
            && v'.sendreq == (if v.sendqueue == [] then None else Some(v.sendqueue[0]))
            && v'.sendqueue == (if v.sendqueue == [] then [] else v.sendqueue[1..])
            && v'.readreq == (if v.readqueue == [] then None else Some(v.readqueue[0]))
            && v'.readqueue == (if v.readqueue == [] then [] else v.readqueue[1..])
            && v'.wire == [] && v'.status == (if v.sendqueue == [] then Disconnected else Connected)
  {
    SlotInRange(g, p, s);
    assert p.servers[s].sendqueue != [] ==> p.servers[s].sendqueue[0] in p.servers[s].sendqueue;
    hide Shaped, IdsOk, ServerShaped;
  }

  lemma DroppedShape(g: Config, up: set<ServerId>, p: Pool, s: ServerId, toRead: set<ServerId>)
    requires Reading(g, p, s, toRead) && p.servers[s].sendreq == p.servers[s].readreq
    requires !LostReconnect(up, p, s)
    ensures var (p', done) := ReadDone(g, up, p, s); var v := p.servers[s];
            && done == v.readreq && Completed(p, p', s, v.readreq.value)
            && ServerOk(p'.requests, s, p'.servers[s])
            && p'.sending == (if v.sendqueue == [] then Without(p.sending, s) else p.sending)
            && p'.servers[s].sendreq == (if v.sendqueue == [] then None else Some(v.sendqueue[0]))
            && p'.servers[s].status == (if v.sendqueue == [] then Disconnected else Connected)
  {
    ReadingServer(g, p, s, toRead);
    DroppedFields(g, up, p, s);
    assert LengthsPositive(p.requests);
    var p' := ReadDone(g, up, p, s).0;
    hide ReadDone, PoolOk, ServerOk, NoDuplicates, Without, PushUnique, On, LengthsPositive, Completed;
    DroppedServer(g, p, s, p');
    var v := p.servers[s];
    assert v.sendqueue != [] ==> v.sendqueue[0] in v.sendqueue;
    OneStreamSet(p, p', s);
    assert Completed(p, p', s, v.readreq.value) by { CompletedFrom(p, p', s, v.readreq.value); }
  }

  lemma OneStreamSet(p: Pool, p': Pool, s: ServerId)
    requires s < |p.servers|
    requires var q := p.servers[s].sendqueue;
             q != [] ==> q[0] < |p.requests| && On(p, s, q[0])
    requires var q := p.servers[s].sendqueue;
             p'.requests == if q == [] then p.requests else p.requests[q[0] := p.requests[q[0]].(io := Some(s))]
    ensures |p'.requests| == |p.requests|
    ensures forall x :: 0 <= x < |p.requests| ==>
              && p'.requests[x].sendbuf == p.requests[x].sendbuf && p'.requests[x].idx == p.requests[x].idx
              && (!On(p, s, x) ==> p'.requests[x] == p.requests[x])
  {
    hide On;
  }

  lemma CompletedFrom(p: Pool, p': Pool, s: ServerId, r: RequestId)
    requires s < |p.servers| == |p'.servers| && |p'.requests| == |p.requests|
    requires p'.servers == p.servers[s := p'.servers[s]]
    requires ReadLine(p.servers[s]) != [] && ReadLine(p.servers[s])[0] == r
    requires ReadLine(p'.servers[s]) == ReadLine(p.servers[s])[1..]
    requires p'.free == PushUnique(p.free, r) && p'.log == p.log + [(r, r)] && p'.reading == p.reading
    requires forall x :: 0 <= x < |p.requests| ==>
               && p'.requests[x].sendbuf == p.requests[x].sendbuf && p'.requests[x].idx == p.requests[x].idx
               && (!On(p, s, x) ==> p'.requests[x] == p.requests[x])
    ensures Completed(p, p', s, r)
  {
  }

  lemma DroppedServer(g: Config, p: Pool, s: ServerId, p': Pool)
    requires s < |p.servers| == |p'.servers| && ServerOk(p.requests, s, p.servers[s]) && LengthsPositive(p.requests)
    requires p.servers[s].readreq.Some? && p.servers[s].sendreq == p.servers[s].readreq
    requires p.servers[s].sendqueue != [] ==> p.servers[s].sendqueue[0] < |p.requests|
    requires var v, v' := p.servers[s], p'.servers[s];
             && p'.requests == (if v.sendqueue == [] then p.requests
                                else p.requests[v.sendqueue[0] := p.requests[v.sendqueue[0]].(io := Some(s))])
             && v'.sendreq == (if v.sendqueue == [] then None else Some(v.sendqueue[0]))
             && v'.sendqueue == (if v.sendqueue == [] then [] else v.sendqueue[1..])
             && v'.readreq == (if v.readqueue == [] then None else Some(v.readqueue[0]))
             && v'.readqueue == (if v.readqueue == [] then [] else v.readqueue[1..])
             && v'.wire == [] && v'.status == (if v.sendqueue == [] then Disconnected else Connected)
    ensures ServerOk(p'.requests, s, p'.servers[s])
    ensures ReadLine(p'.servers[s]) == ReadLine(p.servers[s])[1..]
  {
    hide ServerOk;
    var v := p.servers[s];
    assert v.sendqueue != [] ==> v.sendqueue[0] in v.sendqueue;
    assert SlotMoved(p.requests, p'.requests, s, v, p'.servers[s]);
    DroppedServerOk(p.requests, s, v, p'.servers[s], p'.requests);
  }

  lemma ListeningLeave(p: Pool, p': Pool, side: Side, waiting: set<ServerId>, s: ServerId)
    requires Listening(p, side, waiting) && s < |p.servers| == |p'.servers| && s !in waiting
    requires p'.servers == p.servers[s := p'.servers[s]] && ListOf(side, p') == Without(ListOf(side, p), s)
    requires SlotOf(side, p'.servers[s]).None?
    ensures Listening(p', side, waiting)
  {
  }

  lemma CompletedLive(up: set<ServerId>, p: Pool, p': Pool, s: ServerId, r: RequestId)
    requires Completed(p, p', s, r) && (p'.servers[s].status.Connected? ==> p.servers[s].status.Connected?)
    ensures NewLive(up, p, p')
  {
  }

  lemma CompletedServers(p: Pool, p': Pool, s: ServerId, r: RequestId)
    requires Completed(p, p', s, r)
    ensures s < |p.servers| == |p'.servers| && p'.servers == p.servers[s := p'.servers[s]]
  {
  }

  /** The completed request, and nothing else, goes to the free list; the invariant is kept. */
  lemma ReadDoneOk(g: Config, up: set<ServerId>, p: Pool, s: ServerId, toRead: set<ServerId>)
    requires Reading(g, p, s, toRead) && !LostReconnect(up, p, s)
    ensures var (p', done) := ReadDone(g, up, p, s);
            && done == p.servers[s].readreq && Completed(p, p', s, p.servers[s].readreq.value)
            && StepOk(g, up, p, p', {}, if p'.servers[s].readreq.Some? then toRead + {s} else toRead)
  {
    ReadingServer(g, p, s, toRead);
    assert Listening(p, SendSide, {}) && Shaped(g, p);
    hide PoolOk, ReadDone, ServerOk, Shaped, Listening, Completed, NewLive, Accounted, Without;
    var v, p' := p.servers[s], ReadDone(g, up, p, s).0;
    if v.sendreq == v.readreq {
      DroppedShape(g, up, p, s, toRead);
      CompletedServers(p, p', s, v.readreq.value);
      if v.sendqueue == [] {
        ListeningLeave(p, p', SendSide, {}, s);
      } else {
        ListeningSame(p, p', SendSide, {}, s);
      }
    } else {
      AnsweredShape(g, up, p, s, toRead);
      CompletedServers(p, p', s, v.readreq.value);
      ListeningSame(p, p', SendSide, {}, s);
    }
    CompletedOk(g, p, p', s, v.readreq.value, toRead);
    CompletedLive(up, p, p', s, v.readreq.value);
  }
}
