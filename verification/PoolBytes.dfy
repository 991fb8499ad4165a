/** What is on a stream byte by byte, and what a server's turn to send puts there. */
module PoolBytes {
  import opened Basics
  import opened Wrappers
  import opened Sequences
  import opened Routing
  import opened PoolModel
  import opened PoolInvariant
  import opened PoolRound
  import opened PoolSteps
  import opened PoolTurns
  import opened PoolLanding

  // ---------------------------------------------------------------------------------------------------------
  // The bytes on a stream

  /** What was sent of the requests `ids`, one after the other. */
  function SentBytes(qs: seq<Request>, ids: seq<RequestId>): string
    requires forall x :: x in ids ==> x < |qs| && qs[x].idx <= |qs[x].sendbuf|
  {
    if ids == [] then ""
    else
      var n := |ids| - 1;
      assert ids[n] in ids && forall x :: x in ids[..n] ==> x in ids;
      SentBytes(qs, ids[..n]) + qs[ids[n]].sendbuf[..qs[ids[n]].idx]
  }

  /** The requests `ids` from their first byte to their last. */
  function Whole(qs: seq<Request>, ids: seq<RequestId>): string
    requires forall x :: x in ids ==> x < |qs|
  {
    if ids == [] then ""
    else
      var n := |ids| - 1;
      assert ids[n] in ids && forall x :: x in ids[..n] ==> x in ids;
      Whole(qs, ids[..n]) + qs[ids[n]].sendbuf
  }

  lemma {:induction false} WholeIsSent(qs: seq<Request>, ids: seq<RequestId>)
    requires forall x :: x in ids ==> x < |qs| && qs[x].idx == |qs[x].sendbuf|
    ensures SentBytes(qs, ids) == Whole(qs, ids)
    decreases |ids|
  {
    if ids != [] {
      var n := |ids| - 1;
      assert ids[n] in ids && forall x :: x in ids[..n] ==> x in ids;
      WholeIsSent(qs, ids[..n]);
      assert qs[ids[n]].sendbuf[..qs[ids[n]].idx] == qs[ids[n]].sendbuf;
    }
  }

  lemma SentSnoc(qs: seq<Request>, ids: seq<RequestId>, r: RequestId)
    requires forall x :: x in ids + [r] ==> x < |qs| && qs[x].idx <= |qs[x].sendbuf|
    ensures (forall x :: x in ids ==> x in ids + [r]) && r in ids + [r]
    ensures SentBytes(qs, ids + [r]) == SentBytes(qs, ids) + qs[r].sendbuf[..qs[r].idx]
  {
    assert (ids + [r])[..|ids|] == ids && (ids + [r])[|ids|] == r;
  }

  lemma {:induction false} SentSame(qs: seq<Request>, qs': seq<Request>, ids: seq<RequestId>)
    requires forall x :: x in ids ==> x < |qs| && qs[x].idx <= |qs[x].sendbuf|
    requires |qs'| == |qs| && forall x :: x in ids ==> qs'[x] == qs[x]
    ensures SentBytes(qs', ids) == SentBytes(qs, ids)
    decreases |ids|
  {
    if ids != [] {
      var n := |ids| - 1;
      assert ids[n] in ids && forall x :: x in ids[..n] ==> x in ids;
      SentSame(qs, qs', ids[..n]);
    }
  }

  lemma WireBytesOk(qs: seq<Request>, s: ServerId, v: Server)
    requires ServerOk(qs, s, v)
    ensures forall x :: x in v.wire ==> x < |qs| && qs[x].idx <= |qs[x].sendbuf|
  {
  }

  /** The stream holds every byte of each request that is sent in full and the first idx bytes of the one in the send
      slot, in the order of the read line, and nothing else. */
  lemma StreamHolds(qs: seq<Request>, s: ServerId, v: Server)
    requires ServerOk(qs, s, v)
    ensures |SendLine(v)| <= |ReadLine(v)| && (forall x :: x in Sent(v) ==> x < |qs|)
    ensures v.sendreq.Some? ==> v.sendreq.value < |qs| && qs[v.sendreq.value].idx <= |qs[v.sendreq.value].sendbuf|
    ensures forall x :: x in v.wire ==> x < |qs| && qs[x].idx <= |qs[x].sendbuf|
    ensures SentBytes(qs, v.wire)
            == Whole(qs, Sent(v))
               + match v.sendreq case None => "" case Some(r) => qs[r].sendbuf[..qs[r].idx]
  {
    WireBytesOk(qs, s, v);
    var part := Partial(qs, v);
    assert v.wire == Sent(v) + part && forall x :: x in Sent(v) ==> x in v.wire;
    WholeIsSent(qs, Sent(v));
    hide ServerOk;
    if part == [] {
      assert v.wire == Sent(v);
    } else {
      SentSnoc(qs, Sent(v), v.sendreq.value);
    }
  }

  /** One send() that takes n bytes, or what is left of the request, appends exactly these to the stream. */
  lemma WriteBytes(p: Pool, s: ServerId, r: RequestId, n: nat)
    requires SlotIs(p, s, r) && ServerOk(p.requests, s, p.servers[s])
    ensures var (q, q') := (p.requests[r], Write(p, s, r, n).requests[r]);
            q.idx < |q.sendbuf| && q' == q.(idx := if q.idx + n < |q.sendbuf| then q.idx + n else |q.sendbuf|)
    ensures var (qs', v') := (Write(p, s, r, n).requests, Write(p, s, r, n).servers[s]);
            forall x :: x in v'.wire ==> x < |qs'| && qs'[x].idx <= |qs'[x].sendbuf|
    ensures forall x :: x in p.servers[s].wire ==> x < |p.requests| && p.requests[x].idx <= |p.requests[x].sendbuf|
    ensures var (q, p') := (p.requests[r], Write(p, s, r, n));
            SentBytes(p'.requests, p'.servers[s].wire)
            == SentBytes(p.requests, p.servers[s].wire) + q.sendbuf[q.idx..p'.requests[r].idx]
  {
    var (qs, v) := (p.requests, p.servers[s]);
    hide *;
    WireBytesOk(qs, s, v);
    WriteWire(p, s, r, n);
    WriteFields(p, s, r, n);
    MoreBytes(qs, Write(p, s, r, n).requests, Sent(v), v.wire, Write(p, s, r, n).servers[s].wire, r);
  }

  lemma WriteWire(p: Pool, s: ServerId, r: RequestId, n: nat)
    requires SlotIs(p, s, r) && ServerOk(p.requests, s, p.servers[s])
    ensures s < |p.servers| && r < |p.requests| && s < |Write(p, s, r, n).servers| && r < |Write(p, s, r, n).requests|
    ensures p.requests[r].idx < |p.requests[r].sendbuf| && |SendLine(p.servers[s])| <= |ReadLine(p.servers[s])|
    ensures var (v, v') := (p.servers[s], Write(p, s, r, n).servers[s]);
            && r !in Sent(v) && v.wire == Sent(v) + (if p.requests[r].idx > 0 then [r] else [])
            && v'.wire == Sent(v) + (if Write(p, s, r, n).requests[r].idx > 0 then [r] else [])
  {
    SentApart(p.servers[s]);
    assert r in SendLine(p.servers[s]);
    assert p.requests[r].idx < |p.requests[r].sendbuf|;
    WriteFields(p, s, r, n);
    hide Aligned, StreamOk, SendLine, ReadLine, Write;
    assert Partial(p.requests, p.servers[s]) == if p.requests[r].idx > 0 then [r] else [];
  }

  lemma MoreBytes(qs: seq<Request>, qs': seq<Request>, sent: seq<RequestId>,
                  wire: seq<RequestId>, wire': seq<RequestId>, r: RequestId)
    requires r < |qs| && r !in sent && forall x :: x in wire ==> x < |qs| && qs[x].idx <= |qs[x].sendbuf|
    requires |qs'| == |qs| && qs' == qs[r := qs'[r]] && qs'[r].sendbuf == qs[r].sendbuf
    requires qs[r].idx <= qs'[r].idx <= |qs[r].sendbuf|
    requires wire == sent + (if qs[r].idx > 0 then [r] else [])
    requires wire' == sent + (if qs'[r].idx > 0 then [r] else [])
    ensures forall x :: x in wire' ==> x < |qs'| && qs'[x].idx <= |qs'[x].sendbuf|
    ensures SentBytes(qs', wire') == SentBytes(qs, wire) + qs[r].sendbuf[qs[r].idx..qs'[r].idx]
  {
    assert forall x :: x in sent ==> x in wire && qs'[x] == qs[x];
    SentSame(qs, qs', sent);
    WithLast(qs, sent, wire, r);
    WithLast(qs', sent, wire', r);
    hide *;
    Extend(SentBytes(qs, sent), qs[r].sendbuf, qs[r].idx, qs'[r].idx);
  }

  lemma WithLast(qs: seq<Request>, sent: seq<RequestId>, wire: seq<RequestId>, r: RequestId)
    requires r < |qs| && qs[r].idx <= |qs[r].sendbuf| && wire == sent + (if qs[r].idx > 0 then [r] else [])
    requires forall x :: x in sent ==> x < |qs| && qs[x].idx <= |qs[x].sendbuf|
    ensures forall x :: x in wire ==> x < |qs| && qs[x].idx <= |qs[x].sendbuf|
    ensures SentBytes(qs, wire) == SentBytes(qs, sent) + qs[r].sendbuf[..qs[r].idx]
  {
    if qs[r].idx > 0 { SentSnoc(qs, sent, r); } else { assert wire == sent && qs[r].sendbuf[..0] == ""; }
  }

  lemma Extend(a: string, t: string, i: nat, j: nat)
    requires i <= j <= |t|
    ensures a + t[..j] == a + t[..i] + t[i..j]
  {
    assert t[..j] == t[..i] + t[i..j];
  }

  // ---------------------------------------------------------------------------------------------------------
  // Several writes

  function Writes(p: Pool, s: ServerId, r: RequestId, ns: seq<nat>): (p': Pool)
    requires s < |p.servers| && r < |p.requests|
    ensures s < |p'.servers| && r < |p'.requests|
    decreases |ns|
  {
    if ns == [] then p else Writes(Write(p, s, r, ns[0]), s, r, ns[1..])
  }

  function Sum(ns: seq<nat>): nat { if ns == [] then 0 else ns[0] + Sum(ns[1..]) }

  /** Writes add up: as long as they come to less than the request has left it stays in the send slot with that many
      more bytes sent, and the one with which they come to all of it completes the request, never more. */
  lemma {:induction false} WritesAddUp(p: Pool, s: ServerId, r: RequestId, ns: seq<nat>)
    requires SlotIs(p, s, r) && p.requests[r].idx <= |p.requests[r].sendbuf|
    ensures var (p', q) := (Writes(p, s, r, ns), p.requests[r]);
            SlotIs(p', s, r)
            && p'.requests[r] == q.(idx := if q.idx + Sum(ns) < |q.sendbuf| then q.idx + Sum(ns) else |q.sendbuf|)
    decreases |ns|
  {
    if ns != [] {
      WritesAddUp(Write(p, s, r, ns[0]), s, r, ns[1..]);
    }
  }

  // ---------------------------------------------------------------------------------------------------------
  // A turn to send

  function Left(q: Request): nat { if q.idx < |q.sendbuf| then |q.sendbuf| - q.idx else 0 }

  ghost predicate InRange(p: Pool, line: seq<RequestId>) { forall i :: 0 <= i < |line| ==> line[i] < |p.requests| }

  /** Of the requests in `line` the first k are sent to their last byte, and n more bytes of the next one. */
  ghost predicate SentTo(p: Pool, p': Pool, line: seq<RequestId>, k: nat, n: nat) {
    && |p'.requests| == |p.requests| && InRange(p, line)
    && (forall i :: 0 <= i < |line| ==>
          p'.requests[line[i]].idx
          == if i < k then |p.requests[line[i]].sendbuf| else p.requests[line[i]].idx + if i == k then n else 0)
    && (forall x :: 0 <= x < |p.requests| ==>
          p'.requests[x].sendbuf == p.requests[x].sendbuf && (x !in line ==> p'.requests[x].idx == p.requests[x].idx))
  }

  /** The i-th send() takes all that the i-th request has left. */
  ghost predicate TakesAll(p: Pool, line: seq<RequestId>, outs: seq<SendOutcome>, i: nat) {
    i < |line| && i < |outs| && line[i] < |p.requests| && outs[i].Wrote? && Left(p.requests[line[i]]) <= outs[i].n
  }

  /** What a turn did in which no send() broke: k requests left the send line and nothing else moved. */
  ghost predicate TurnSent(p: Pool, p': Pool, s: ServerId, k: nat, n: nat) {
    && s < |p.servers| == |p'.servers| && p'.servers == p.servers[s := p'.servers[s]]
    && var (v, v', line) := (p.servers[s], p'.servers[s], SendLine(p.servers[s]));
       && k <= |line| && SendLine(v') == line[k..] && v'.readreq == v.readreq && v'.readqueue == v.readqueue
       && v'.status == v.status && v.wire <= v'.wire && SentTo(p, p', line, k, n)
       && p'.sending == (if k < |line| then PushUnique(p.sending, s) else p.sending)
       && p'.reading == p.reading && p'.free == p.free && p'.log == p.log
  }

  /** How many bytes of the request that is not completed are taken. */
  function Rest(outs: seq<SendOutcome>, k: nat): nat {
    if k < |outs| && outs[k].Wrote? then outs[k].n else 0
  }

  ghost predicate Breaks(line: seq<RequestId>, outs: seq<SendOutcome>, k: nat) {
    k < |line| && k < |outs| && outs[k].Broken?
  }

  /** The turn went through the send line as far as each send() takes all of its request. The next one is sent as far as
      the socket takes it, and the server stays listed for it; if the socket breaks there, the server is down. */
  ghost predicate TurnTold(p: Pool, p': Pool, reading: seq<ServerId>, left: seq<ServerId>, s: ServerId,
                           outs: seq<SendOutcome>, k: nat)
    requires s < |p.servers|
  {
    var line := SendLine(p.servers[s]);
    && k <= |line| && k <= |outs|
    && (forall i :: 0 <= i < k ==> TakesAll(p, line, outs, i)) && !TakesAll(p, line, outs, k)
    && if Breaks(line, outs, k) then IsDown(p', s) && left == Without(reading, s)
       else TurnSent(p, p', s, k, if k < |line| then Rest(outs, k) else 0) && left == reading
  }

  /** A server's turn to send, told from what each send() takes. */
  lemma {:induction false} SendTurnExact(g: Config, up: set<ServerId>, p: Pool, reading: seq<ServerId>, s: ServerId,
                                         outs: seq<SendOutcome>, toSend: set<ServerId>) returns (k: nat)
    requires s < |p.servers| && s !in toSend
    requires PoolOk(g, p, if p.servers[s].sendreq.Some? then toSend + {s} else toSend, Set(reading))
    ensures var (p', left) := SendTurn(g, up, p, reading, s, outs); TurnTold(p, p', reading, left, s, outs, k)
    decreases |outs|
  {
    var v, line := p.servers[s], SendLine(p.servers[s]);
    LineKnown(g, p, s, if v.sendreq.Some? then toSend + {s} else toSend, Set(reading));
    if v.sendreq.None? || outs == [] || outs[0].WouldBlock? || outs[0].Broken? {
      k := 0;
      StopTold(g, up, p, reading, s, outs, toSend);
    } else {
      var (x, n) := (v.sendreq.value, outs[0].n);
      TakesLess(p, line, outs);
      if p.requests[x].idx + n < |p.requests[x].sendbuf| {
        k := 0;
        PartTurn(g, up, p, reading, s, outs, toSend);
      } else {
        var p2 := FullTurn(g, up, p, reading, s, outs, toSend);
        hide *;
        k := SendTurnExact(g, up, p2, reading, s, outs[1..], toSend);
        var (p', left) := SendTurn(g, up, p2, reading, s, outs[1..]);
        OnTold(p, p2, p', reading, left, s, outs, k);
        k := k + 1;
      }
    }
  }

  lemma PoolIsShaped(g: Config, p: Pool, toSend: set<ServerId>, toRead: set<ServerId>)
    requires PoolOk(g, p, toSend, toRead)
    ensures Shaped(g, p)
  {
  }

  lemma PartTurn(g: Config, up: set<ServerId>, p: Pool, reading: seq<ServerId>, s: ServerId, outs: seq<SendOutcome>,
                 toSend: set<ServerId>)
    requires s < |p.servers| && s !in toSend && p.servers[s].sendreq.Some? && outs != [] && outs[0].Wrote?
    requires PoolOk(g, p, toSend + {s}, Set(reading)) && SlotIs(p, s, p.servers[s].sendreq.value)
    requires var q := p.requests[p.servers[s].sendreq.value]; q.idx + outs[0].n < |q.sendbuf|
    ensures var (p', left) := SendTurn(g, up, p, reading, s, outs); TurnTold(p, p', reading, left, s, outs, 0)
  {
    hide PoolOk, Shaped, Write, TurnTold, TakesAll, NoDuplicates, InRange, TurnSent;
    var (x, n) := (p.servers[s].sendreq.value, outs[0].n);
    LineKnown(g, p, s, toSend + {s}, Set(reading));
    PoolIsShaped(g, p, toSend + {s}, Set(reading));
    assert SendLine(p.servers[s]) != [];
    WriteShaped(g, p, s, x, n);
    WriteFields(p, s, x, n);
    TakesLess(p, SendLine(p.servers[s]), outs);
    hide SendLine, SlotIs;
    PartYet(p, Write(p, s, x, n), s, x, n);
    PartTold(p, Write(p, s, x, n), reading, s, outs);
  }

  lemma FullTurn(g: Config, up: set<ServerId>, p: Pool, reading: seq<ServerId>, s: ServerId, outs: seq<SendOutcome>,
                 toSend: set<ServerId>) returns (p2: Pool)
    requires s < |p.servers| && s !in toSend && p.servers[s].sendreq.Some? && outs != [] && outs[0].Wrote?
    requires PoolOk(g, p, toSend + {s}, Set(reading)) && SlotIs(p, s, p.servers[s].sendreq.value)
    requires var q := p.requests[p.servers[s].sendreq.value]; q.idx + outs[0].n >= |q.sendbuf|
    ensures Shaped(g, p) && Shaped(g, p2) && s < |p2.servers| && OneSent(p, p2, s)
    ensures PoolOk(g, p2, if p2.servers[s].sendreq.Some? then toSend + {s} else toSend, Set(reading))
    ensures SendTurn(g, up, p, reading, s, outs) == SendTurn(g, up, p2, reading, s, outs[1..])
  {
    var (x, n) := (p.servers[s].sendreq.value, outs[0].n);
    LineKnown(g, p, s, toSend + {s}, Set(reading));
    SlotOn(g, p, s, x, toSend + {s}, Set(reading));
    assert Shaped(g, p) && |p.requests[x].sendbuf| <= p.requests[x].idx + Written(p.requests[x], n);
    hide PoolOk, Shaped, Write, NextSend, OneSent, SendLine, ReadLine, NoDuplicates, InRange, Accounted, NewLive,
         Sending, Written, On, IdsOk;
    WriteShaped(g, p, s, x, n);
    WriteFields(p, s, x, n);
    var p1 := Write(p, s, x, n);
    FullOk(g, up, p, s, x, n, toSend, Set(reading));
    NextSendShaped(g, p1, s);
    NextFields(p1, s);
    p2 := NextSend(p1, s);
    assert |p1.requests[x].sendbuf| <= p1.requests[x].idx;
    TurnGoesOn(g, up, p, reading, s, outs, x);
    hide SendTurn;
    OneGone(p, p1, p2, s, x);
  }

  lemma TurnGoesOn(g: Config, up: set<ServerId>, p: Pool, reading: seq<ServerId>, s: ServerId, outs: seq<SendOutcome>,
                   x: RequestId)
    requires Shaped(g, p) && s < |p.servers| && p.servers[s].sendreq == Some(x) && x < |p.requests|
    requires outs != [] && outs[0].Wrote?
    requires var p1 := Write(p, s, x, outs[0].n);
             && Shaped(g, p1) && s < |p1.servers| && x < |p1.requests| && |p1.requests[x].sendbuf| <= p1.requests[x].idx
             && IdsOk(|p1.requests|, p1.servers[s].sendqueue) && Shaped(g, NextSend(p1, s))
             && s < |NextSend(p1, s).servers|
    ensures SendTurn(g, up, p, reading, s, outs)
            == SendTurn(g, up, NextSend(Write(p, s, x, outs[0].n), s), reading, s, outs[1..])
  {
    hide Shaped, Write, NextSend, Fail;
  }

  lemma StopTold(g: Config, up: set<ServerId>, p: Pool, reading: seq<ServerId>, s: ServerId, outs: seq<SendOutcome>,
                 toSend: set<ServerId>)
    requires s < |p.servers| && s !in toSend && InRange(p, SendLine(p.servers[s]))
    requires PoolOk(g, p, if p.servers[s].sendreq.Some? then toSend + {s} else toSend, Set(reading))
    requires p.servers[s].sendreq.None? ==> SendLine(p.servers[s]) == []
    requires p.servers[s].sendreq.None? || outs == [] || outs[0].WouldBlock? || outs[0].Broken?
    ensures var (p', left) := SendTurn(g, up, p, reading, s, outs); TurnTold(p, p', reading, left, s, outs, 0)
  {
    if p.servers[s].sendreq.None? || outs == [] || outs[0].WouldBlock? {
      NothingYet(p, if p.servers[s].sendreq.None? then p else StaySending(p, s), s);
      hide PoolOk, TurnSent, InRange;
    } else {
      FailureIsHard(g, p, s, toSend + {s}, Set(reading));
      DownAfterDeactivate(g, up, p, s, s);
      hide PoolOk, IsDown, Deactivate, InRange;
    }
  }

  lemma PartTold(p: Pool, p1: Pool, reading: seq<ServerId>, s: ServerId, outs: seq<SendOutcome>)
    requires s < |p.servers| && SendLine(p.servers[s]) != [] && outs != [] && outs[0].Wrote?
    requires TurnSent(p, StaySending(p1, s), s, 0, outs[0].n) && !TakesAll(p, SendLine(p.servers[s]), outs, 0)
    ensures TurnTold(p, StaySending(p1, s), reading, reading, s, outs, 0)
  {
    hide TurnSent, TakesAll, SendLine;
  }

  lemma OnTold(p: Pool, p1: Pool, p2: Pool, reading: seq<ServerId>, left: seq<ServerId>, s: ServerId,
               outs: seq<SendOutcome>, m: nat)
    requires OneSent(p, p1, s) && outs != [] && TakesAll(p, SendLine(p.servers[s]), outs, 0)
    requires TurnTold(p1, p2, reading, left, s, outs[1..], m)
    ensures TurnTold(p, p2, reading, left, s, outs, m + 1)
  {
    var line := SendLine(p.servers[s]);
    TakesOn(p, p1, s, outs, m);
    OneMoreOf(p, p1, s);
    hide TakesAll, TurnSent, OneSent, Breaks, Rest, SendLine, IsDown;
    forall i | 0 <= i < m + 1 ensures TakesAll(p, line, outs, i) {
      if i > 0 { assert TakesAll(p1, line[1..], outs[1..], i - 1); }
    }
    if !Breaks(line, outs, m + 1) { SentOn(p, p1, p2, s, m, if m < |line[1..]| then Rest(outs[1..], m) else 0); }
  }

  lemma OneMoreOf(p: Pool, p1: Pool, s: ServerId)
    requires OneSent(p, p1, s)
    ensures s < |p.servers| == |p1.servers| && SendLine(p.servers[s]) != []
    ensures SendLine(p1.servers[s]) == SendLine(p.servers[s])[1..]
  {
  }

  /** The requests of a send line are all different and in the tables, and the first one has something left. */
  lemma LineKnown(g: Config, p: Pool, s: ServerId, toSend: set<ServerId>, toRead: set<ServerId>)
    requires PoolOk(g, p, toSend, toRead) && s < |p.servers|
    ensures var (v, line) := (p.servers[s], SendLine(p.servers[s]));
            && NoDuplicates(line) && InRange(p, line) && (v.sendreq.None? ==> line == [])
            && (v.sendreq.Some? ==> line[0] == v.sendreq.value && line[1..] == v.sendqueue
                                    && p.requests[line[0]].idx < |p.requests[line[0]].sendbuf|)
            && forall i :: 0 <= i < |line| ==> p.requests[line[i]].idx <= |p.requests[line[i]].sendbuf|
  {
    var v := p.servers[s];
    assert ServerOk(p.requests, s, v);
    SuffixUnique(SendLine(v), ReadLine(v));
    hide PoolOk, NoDuplicates, IsSuffix, ReadLine;
    forall i | 0 <= i < |SendLine(v)|
      ensures SendLine(v)[i] < |p.requests|
      ensures p.requests[SendLine(v)[i]].idx <= |p.requests[SendLine(v)[i]].sendbuf|
    {
      InLine(p.requests, v, i);
    }
  }

  lemma InLine(qs: seq<Request>, v: Server, i: nat)
    requires ServerShaped(|qs|, v) && Aligned(v) && WireOk(qs, v) && i < |SendLine(v)|
    ensures SendLine(v)[i] < |qs| && qs[SendLine(v)[i]].idx <= |qs[SendLine(v)[i]].sendbuf|
  {
    assert SendLine(v)[i] in SendLine(v);
    hide Aligned;
    if v.sendreq.Some? && i > 0 { assert SendLine(v)[i] == v.sendqueue[i - 1]; }
  }

  lemma NothingYet(p: Pool, p': Pool, s: ServerId)
    requires s < |p.servers| && InRange(p, SendLine(p.servers[s]))
    requires p' == if SendLine(p.servers[s]) == [] then p else StaySending(p, s)
    ensures TurnSent(p, p', s, 0, 0)
  {
    assert p.servers[s := p.servers[s]] == p.servers;
  }

  lemma PartYet(p: Pool, p1: Pool, s: ServerId, x: RequestId, n: nat)
    requires SlotIs(p, s, x) && NoDuplicates(SendLine(p.servers[s])) && InRange(p, SendLine(p.servers[s]))
    requires p1.requests == p.requests[x := p.requests[x].(idx := p.requests[x].idx + n)]
    requires |p1.servers| == |p.servers| && p1.servers == p.servers[s := p.servers[s].(wire := p1.servers[s].wire)]
    requires p.servers[s].wire <= p1.servers[s].wire
    requires p1.free == p.free && p1.log == p.log && p1.sending == p.sending && p1.reading == p.reading
    ensures TurnSent(p, StaySending(p1, s), s, 0, n)
  {
    var (line, p') := (SendLine(p.servers[s]), StaySending(p1, s));
    assert SendLine(p'.servers[s]) == line && line[0..] == line && line[0] == x;
    assert p'.servers == p.servers[s := p'.servers[s]];
    assert x in line;
    hide SendLine;
  }

  lemma TakesLess(p: Pool, line: seq<RequestId>, outs: seq<SendOutcome>)
    requires line != [] && outs != [] && line[0] < |p.requests|
    requires p.requests[line[0]].idx < |p.requests[line[0]].sendbuf|
    ensures TakesAll(p, line, outs, 0)
            <==> outs[0].Wrote? && p.requests[line[0]].idx + outs[0].n >= |p.requests[line[0]].sendbuf|
  {
  }

  /** The first request of the send line is sent to its last byte and the next one is in the slot. */
  ghost predicate OneSent(p: Pool, p': Pool, s: ServerId) {
    && s < |p.servers| == |p'.servers| && p'.servers == p.servers[s := p'.servers[s]]
    && var (v, v', line) := (p.servers[s], p'.servers[s], SendLine(p.servers[s]));
       && line != [] && NoDuplicates(line) && SendLine(v') == line[1..] && SentTo(p, p', line, 1, 0)
       && v'.readreq == v.readreq && v'.readqueue == v.readqueue && v'.status == v.status && v.wire <= v'.wire
       && p'.sending == p.sending && p'.reading == p.reading && p'.free == p.free && p'.log == p.log
  }

  lemma OneGone(p: Pool, p1: Pool, p2: Pool, s: ServerId, x: RequestId)
    requires SlotIs(p, s, x) && NoDuplicates(SendLine(p.servers[s])) && InRange(p, SendLine(p.servers[s]))
    requires p1.requests == p.requests[x := p.requests[x].(idx := |p.requests[x].sendbuf|)]
    requires |p1.servers| == |p.servers| && p1.servers == p.servers[s := p.servers[s].(wire := p1.servers[s].wire)]
    requires p.servers[s].wire <= p1.servers[s].wire
    requires p1.free == p.free && p1.log == p.log && p1.sending == p.sending && p1.reading == p.reading
    requires var v := p1.servers[s];
             && |p2.servers| == |p1.servers| && p2.servers == p1.servers[s := p2.servers[s]]
             && p2.servers[s].sendreq == (if v.sendqueue == [] then None else Some(v.sendqueue[0]))
             && p2.servers[s].sendqueue == (if v.sendqueue == [] then [] else v.sendqueue[1..])
             && p2.servers[s].readreq == v.readreq && p2.servers[s].readqueue == v.readqueue
             && p2.servers[s].status == p.servers[s].status && p2.servers[s].wire == v.wire
               && |p2.requests| == |p1.requests|
             && (forall y :: 0 <= y < |p1.requests| ==>
                   p2.requests[y] == if v.sendqueue != [] && y == v.sendqueue[0] then p1.requests[y].(io := Some(s))
                                     else p1.requests[y])
             && p2.free == p1.free && p2.log == p1.log && p2.sending == p1.sending && p2.reading == p1.reading
    ensures OneSent(p, p2, s)
  {
    var line := SendLine(p.servers[s]);
    assert line[0] == x && line[1..] == p.servers[s].sendqueue;
    hide SentTo, NoDuplicates, InRange;
    GoneSent(p, p1, p2, line, s, x);
    assert SendLine(p2.servers[s]) == line[1..];
    hide SendLine;
    TwoUpdates(p.servers, p1.servers, p2.servers, s);
  }

  lemma TwoUpdates(vs: seq<Server>, vs1: seq<Server>, vs2: seq<Server>, s: ServerId)
    requires s < |vs| == |vs1| == |vs2| && vs1 == vs[s := vs1[s]] && vs2 == vs1[s := vs2[s]]
    ensures vs2 == vs[s := vs2[s]]
  {
  }

  lemma GoneSent(p: Pool, p1: Pool, p2: Pool, line: seq<RequestId>, s: ServerId, x: RequestId)
    requires line != [] && line[0] == x && NoDuplicates(line) && InRange(p, line) && |p2.requests| == |p1.requests|
    requires p1.requests == p.requests[x := p.requests[x].(idx := |p.requests[x].sendbuf|)]
    requires forall y :: 0 <= y < |p1.requests| ==>
               p2.requests[y] == if |line| > 1 && y == line[1] then p1.requests[y].(io := Some(s)) else p1.requests[y]
    ensures SentTo(p, p2, line, 1, 0)
  {
    assert x in line && (forall i :: 1 <= i < |line| ==> line[i] != x);
    hide NoDuplicates;
  }

  lemma SentOn(p: Pool, p1: Pool, p2: Pool, s: ServerId, k: nat, n: nat)
    requires OneSent(p, p1, s) && TurnSent(p1, p2, s, k, n)
    ensures TurnSent(p, p2, s, k + 1, n)
  {
    var line := SendLine(p.servers[s]);
    assert line[1..][k..] == line[k + 1..];
    assert p2.servers == p.servers[s := p2.servers[s]];
    hide SendLine;
    SentToOn(p, p1, p2, line, k, n);
  }

  lemma SentToOn(p: Pool, p1: Pool, p2: Pool, line: seq<RequestId>, k: nat, n: nat)
    requires line != [] && NoDuplicates(line) && SentTo(p, p1, line, 1, 0) && SentTo(p1, p2, line[1..], k, n)
    ensures SentTo(p, p2, line, k + 1, n)
  {
    assert line[0] !in line[1..];
    forall i | 0 <= i < |line|
      ensures p2.requests[line[i]].idx
              == if i < k + 1 then |p.requests[line[i]].sendbuf|
                 else p.requests[line[i]].idx + if i == k + 1 then n else 0
    {
      if i > 0 { assert line[1..][i - 1] == line[i]; }
    }
    assert forall x :: x !in line ==> x !in line[1..];
  }

  lemma TakesOn(p: Pool, p1: Pool, s: ServerId, outs: seq<SendOutcome>, k: nat)
    requires OneSent(p, p1, s) && outs != []
    ensures var line := SendLine(p.servers[s]);
            && SendLine(p1.servers[s]) == line[1..]
            && (forall i :: 0 <= i ==> (TakesAll(p1, line[1..], outs[1..], i) <==> TakesAll(p, line, outs, i + 1)))
            && (Breaks(line[1..], outs[1..], k) <==> Breaks(line, outs, k + 1))
              && Rest(outs[1..], k) == Rest(outs, k + 1)
  {
    var line := SendLine(p.servers[s]);
    hide SendLine;
    forall i | 0 <= i ensures TakesAll(p1, line[1..], outs[1..], i) <==> TakesAll(p, line, outs, i + 1) {
      if i < |line| - 1 { TakesShift(p, p1, line, outs, i); }
    }
  }

  lemma TakesShift(p: Pool, p1: Pool, line: seq<RequestId>, outs: seq<SendOutcome>, i: nat)
    requires outs != [] && i + 1 < |line| && NoDuplicates(line) && SentTo(p, p1, line, 1, 0)
    ensures TakesAll(p1, line[1..], outs[1..], i) <==> TakesAll(p, line, outs, i + 1)
  {
    assert line[1..][i] == line[i + 1] && line[i + 1] < |p.requests|;
    assert p1.requests[line[i + 1]].idx == p.requests[line[i + 1]].idx;
  }
}
