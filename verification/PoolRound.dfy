/** One select() round and whole runs (mmc_pool_select_impl and mmc_pool_run), as functions of what the sockets do. */
module PoolRound {
  import opened Basics
  import opened Wrappers
  import opened Sequences
  import opened Routing
  import opened PoolModel

  /** What one call to send() does. */
  datatype SendOutcome = Wrote(n: nat) | WouldBlock | Broken

  /** What one call to a request's parser returns: DONE, AGAIN, MORE (with or without end of file) or FAILURE. */
  datatype ParseOutcome = Reply | Again | More(eof: bool) | Malformed

  /** The sockets during one round. A server that is missing from `sends` or `parses`, or whose list is used up,
      has nothing more to offer: its next call would block. `up` is the set of servers that accept connections. */
  datatype Round = Round(
    up: set<ServerId>,
    nothingReady: bool,
    writable: set<ServerId>,
    readable: set<ServerId>,
    sends: map<ServerId, seq<SendOutcome>>,
    parses: map<ServerId, seq<ParseOutcome>>)

  function Script<T>(m: map<ServerId, seq<T>>, s: ServerId): seq<T> {
    if s in m then m[s] else []
  }

  /** mmc_server_failure: a stream that is not connected gets another try, any other fails for good. */
  datatype Verdict = RetryRequest | HardFailure

  function ServerFailure(status: Status): Verdict {
    if status.Disconnected? then RetryRequest else HardFailure
  }

  function StaySending(p: Pool, s: ServerId): Pool { p.(sending := PushUnique(p.sending, s)) }

  function StayReading(p: Pool, s: ServerId): Pool { p.(reading := PushUnique(p.reading, s)) }

  // ---------------------------------------------------------------------------------------------------------
  // Sending

  /** send() took `n` bytes, or as many as were left. */
  function Written(q: Request, n: nat): nat {
    var left := if q.idx < |q.sendbuf| then |q.sendbuf| - q.idx else 0;
    if n < left then n else left
  }

  function Write(p: Pool, s: ServerId, r: RequestId, n: nat): Pool
    requires s < |p.servers| && r < |p.requests|
  {
    var q := p.requests[r];
    var k := Written(q, n);
    var v := p.servers[s];
    WithServer(WithRequest(p, r, q.(idx := q.idx + k)), s,
               v.(wire := if q.idx == 0 && k > 0 then v.wire + [r] else v.wire))
  }

  /** The next queued request moves into the send slot of a connected server. */
  function NextSend(p: Pool, s: ServerId): Pool
    requires s < |p.servers| && IdsOk(|p.requests|, p.servers[s].sendqueue)
  {
    var v := p.servers[s];
    if v.sendqueue == [] then WithServer(p, s, v.(sendreq := None))
    else
      assert v.sendqueue[0] in v.sendqueue;
      SlotSend(WithServer(p, s, v.(sendqueue := v.sendqueue[1..])), s, v.sendqueue[0])
  }

  lemma SlotInRange(g: Config, p: Pool, s: ServerId)
    requires Shaped(g, p) && s < |p.servers|
    ensures p.servers[s].sendreq.Some? ==> p.servers[s].sendreq.value < |p.requests|
    ensures p.servers[s].readreq.Some? ==> p.servers[s].readreq.value < |p.requests|
    ensures IdsOk(|p.requests|, p.servers[s].sendqueue) && IdsOk(|p.requests|, p.servers[s].readqueue)
  {
    var v := p.servers[s];
    assert ServerShaped(|p.requests|, v);
    assert v.sendreq.Some? ==> v.sendreq.value in SendLine(v);
    assert v.readreq.Some? ==> v.readreq.value in ReadLine(v);
    assert forall r :: r in v.sendqueue ==> r in SendLine(v);
    assert forall r :: r in v.readqueue ==> r in ReadLine(v);
  }

  lemma NextSendShaped(g: Config, p: Pool, s: ServerId)
    requires Shaped(g, p) && s < |p.servers| && IdsOk(|p.requests|, p.servers[s].sendqueue)
    ensures Shaped(g, NextSend(p, s)) && |NextSend(p, s).requests| == |p.requests|
  {
    var v, p' := p.servers[s], NextSend(p, s);
    var v' := p'.servers[s];
    assert v.sendqueue != [] ==> v.sendqueue[0] in v.sendqueue;
    assert |p'.requests| == |p.requests|;
    assert ServerShaped(|p.requests|, v);
    assert ReadLine(v') == ReadLine(v);
    assert forall r :: r in SendLine(v') ==> r in SendLine(v);
    assert ServerShaped(|p'.requests|, v');
    assert p'.servers == p.servers[s := v'];
  }

  lemma WriteShaped(g: Config, p: Pool, s: ServerId, r: RequestId, n: nat)
    requires Shaped(g, p) && s < |p.servers| && r < |p.requests|
    ensures Shaped(g, Write(p, s, r, n)) && |Write(p, s, r, n).requests| == |p.requests|
  {
    var v, v' := p.servers[s], Write(p, s, r, n).servers[s];
    assert ServerShaped(|p.requests|, v);
    assert ReadLine(v') == ReadLine(v) && SendLine(v') == SendLine(v);
  }

  // ---------------------------------------------------------------------------------------------------------
  // A slot moves on while the stream may have to be opened

  /** mmc_pool_slot_send with the popped send queue, which reconnects if the stream is closed. A server without a next
      request leaves the list. If the reconnect fails, the server goes down with everything in its read line, and the
      request that was taken from the send queue is handed to its failover handler once more. */
  function SlotNext(g: Config, up: set<ServerId>, p: Pool, s: ServerId): (p': Pool)
    requires Shaped(g, p) && s < |p.servers|
    ensures Shaped(g, p') && |p'.requests| == |p.requests|
  {
    SlotInRange(g, p, s);
    NextSendShaped(g, p, s);
    var v := p.servers[s];
    if v.sendqueue == [] then Unlisted(NextSend(p, s), s)
    else if v.status.Connected? || s in up then NextSend(p, s)
    else
      var next := v.sendqueue[0];
      assert next in v.sendqueue;
      var p2 := Deactivate(g, up, p, s);
      SlotCleared(g, p2, s);
      Unlisted(Failover(g, up, WithServer(p2, s, p2.servers[s].(sendreq := None)), s, next), s)
  }

  /** A server with an empty send slot leaves the list. */
  function Unlisted(p: Pool, s: ServerId): Pool
    requires s < |p.servers|
  {
    if p.servers[s].sendreq.None? then p.(sending := Without(p.sending, s)) else p
  }

  function OutOfQueues(p: Pool, s: ServerId, r: RequestId): Pool
    requires s < |p.servers|
  {
    var v := p.servers[s];
    WithServer(p, s, v.(sendqueue := Without(v.sendqueue, r), readqueue := Without(v.readqueue, r)))
  }

  /** If the request is in the read slot, the slot moves on; a server whose slot ran empty leaves the list. */
  function OutOfReadSlot(g: Config, p: Pool, s: ServerId, r: RequestId): (p': Pool)
    requires Shaped(g, p) && s < |p.servers|
    ensures Shaped(g, p') && |p'.requests| == |p.requests|
  {
    if p.servers[s].readreq != Some(r) then p
    else
      var p1 := NextRead(g, p, s);
      if p1.servers[s].readreq.None? then p1.(reading := Without(p1.reading, s)) else p1
  }

  /** mmc_select_retry: the request leaves both queues and its slots, which move on, and is failed over. */
  function SelectRetry(g: Config, up: set<ServerId>, p: Pool, s: ServerId, r: RequestId): (p': Pool)
    requires Shaped(g, p) && s < |p.servers| && r < |p.requests|
    ensures Shaped(g, p') && |p'.requests| == |p.requests|
  {
    QueuesShaped(g, p, s, r);
    var p1 := OutOfQueues(p, s, r);
    var p2 := if p.servers[s].sendreq == Some(r) then SlotNext(g, up, p1, s) else p1;
    Failover(g, up, OutOfReadSlot(g, p2, s, r), s, r)
  }

  lemma QueuesShaped(g: Config, p: Pool, s: ServerId, r: RequestId)
    requires Shaped(g, p) && s < |p.servers|
    ensures Shaped(g, OutOfQueues(p, s, r)) && |OutOfQueues(p, s, r).requests| == |p.requests|
  {
    var v := p.servers[s];
    var v' := v.(sendqueue := Without(v.sendqueue, r), readqueue := Without(v.readqueue, r));
    assert ServerShaped(|p.requests|, v);
    assert forall x :: x in ReadLine(v') ==> x in ReadLine(v);
    assert forall x :: x in SendLine(v') ==> x in SendLine(v);
  }

  /** The answer to a failure that the request in a slot met. */
  function Fail(g: Config, up: set<ServerId>, p: Pool, s: ServerId, side: Side): (p': Pool)
    requires Shaped(g, p) && s < |p.servers|
    ensures Shaped(g, p') && |p'.requests| == |p.requests|
  {
    SlotInRange(g, p, s);
    match (ServerFailure(p.servers[s].status), SlotOf(side, p.servers[s]))
    case (RetryRequest, Some(r)) => SelectRetry(g, up, p, s, r)
    case _ => Deactivate(g, up, p, s)
  }

  /** A server's turn to send: request after request, until the socket takes no more. `reading` is the part of the
      old reading list this round still has to visit. */
  function SendTurn(g: Config, up: set<ServerId>, p: Pool, reading: seq<ServerId>, s: ServerId, outs: seq<SendOutcome>)
    : (r: (Pool, seq<ServerId>))
    requires Shaped(g, p) && s < |p.servers|
    ensures Shaped(g, r.0) && |r.0.requests| == |p.requests| && IsWithin(r.1, reading)
    decreases |outs|
  {
    SlotInRange(g, p, s);
    match p.servers[s].sendreq
    case None => (p, reading)
    case Some(x) =>
      if outs == [] || outs[0].WouldBlock? then (StaySending(p, s), reading)
      else if outs[0].Broken? then
        (Fail(g, up, p, s, SendSide),
         if ServerFailure(p.servers[s].status).HardFailure? then Without(reading, s) else reading)
      else
        WriteShaped(g, p, s, x, outs[0].n);
        var p1 := Write(p, s, x, outs[0].n);
        if p1.requests[x].idx < |p1.requests[x].sendbuf| then (StaySending(p1, s), reading)
        else
          NextSendShaped(g, p1, s);
          SendTurn(g, up, NextSend(p1, s), reading, s, outs[1..])
  }

  predicate IsWithin(a: seq<ServerId>, b: seq<ServerId>) { forall x :: x in a ==> x in b }

  function SendPhase(g: Config, e: Round, p: Pool, list: seq<ServerId>, reading: seq<ServerId>)
    : (r: (Pool, seq<ServerId>))
    requires Shaped(g, p) && IdsOk(|p.servers|, list)
    ensures Shaped(g, r.0) && |r.0.requests| == |p.requests| && IsWithin(r.1, reading)
    decreases |list|
  {
    if list == [] then (p, reading)
    else
      var s := list[0];
      assert s in list && forall x :: x in list[1..] ==> x in list;
      if p.servers[s].sendreq.None? then SendPhase(g, e, p, list[1..], reading)
      else if s in e.writable then
        var (p1, left) := SendTurn(g, e.up, p, reading, s, Script(e.sends, s));
        SendPhase(g, e, p1, list[1..], left)
      else SendPhase(g, e, StaySending(p, s), list[1..], reading)
  }

  // ---------------------------------------------------------------------------------------------------------
  // Reading

  /** A reply that ends while its request is still being sent: the stream is dropped, and the send slot moves on,
      which reconnects if there is a next request. */
  function DropStream(g: Config, up: set<ServerId>, p: Pool, s: ServerId): (p': Pool)
    requires Shaped(g, p) && s < |p.servers|
    ensures Shaped(g, p') && |p'.requests| == |p.requests|
  {
    SlotInRange(g, p, s);
    var v := p.servers[s];
    var p1 := WithServer(p, s, v.(status := Disconnected, wire := []));
    assert ServerShaped(|p.requests|, v);
    assert ReadLine(p1.servers[s]) == ReadLine(v) && SendLine(p1.servers[s]) == SendLine(v);
    SlotNext(g, up, p1, s)
  }

  /** A parser returned DONE. The second result is the pointer that goes on the free list: NULL if the read slot
      was emptied in between. */
  function ReadDone(g: Config, up: set<ServerId>, p: Pool, s: ServerId): (r: (Pool, Option<RequestId>))
    requires Shaped(g, p) && s < |p.servers| && p.servers[s].readreq.Some? && p.servers[s].wire != []
    ensures Shaped(g, r.0) && |r.0.requests| == |p.requests|
  {
    var v := p.servers[s];
    var p1 := p.(log := p.log + [(v.readreq.value, v.wire[0])]);
    var p2 := if v.sendreq == v.readreq then DropStream(g, up, p1, s)
              else
                (assert ReadLine(v.(wire := v.wire[1..])) == ReadLine(v);
                 assert SendLine(v.(wire := v.wire[1..])) == SendLine(v);
                 assert ServerShaped(|p.requests|, v);
                 WithServer(p1, s, v.(wire := v.wire[1..])));
    var done := p2.servers[s].readreq;
    var p3 := if done.Some? then Release(p2, done.value) else p2;
    (NextRead(g, p3, s), done)
  }

  /** The next waiting request moves into the read slot. */
  function NextRead(g: Config, p: Pool, s: ServerId): (p': Pool)
    requires Shaped(g, p) && s < |p.servers|
    ensures Shaped(g, p') && |p'.requests| == |p.requests|
  {
    var v := p.servers[s];
    var v' := if v.readqueue == [] then v.(readreq := None)
              else v.(readreq := Some(v.readqueue[0]), readqueue := v.readqueue[1..]);
    assert ServerShaped(|p.requests|, v);
    assert forall r :: r in ReadLine(v') ==> r in ReadLine(v);
    assert SendLine(v') == SendLine(v);
    WithServer(p, s, v')
  }

  /** A server's turn to read: reply after reply, until the stream has no more to give. A reply can only be there
      if the stream carries a request that was not answered yet. */
  function ReadTurn(g: Config, up: set<ServerId>, p: Pool, s: ServerId, outs: seq<ParseOutcome>): (p': Pool)
    requires Shaped(g, p) && s < |p.servers|
    ensures Shaped(g, p') && |p'.requests| == |p.requests|
    decreases |outs|
  {
    if p.servers[s].readreq.None? then p
    else if outs == [] then StayReading(p, s)
    else match outs[0]
      case Malformed => Fail(g, up, p, s, ReadSide)
      case More(eof) => if eof then Fail(g, up, p, s, ReadSide) else StayReading(p, s)
      case Again => ReadTurn(g, up, p, s, outs[1..])
      case Reply =>
        if p.servers[s].wire == [] then StayReading(p, s)
        else ReadTurn(g, up, ReadDone(g, up, p, s).0, s, outs[1..])
  }

  function ReadPhase(g: Config, e: Round, p: Pool, list: seq<ServerId>): (p': Pool)
    requires Shaped(g, p) && IdsOk(|p.servers|, list)
    ensures Shaped(g, p') && |p'.requests| == |p.requests|
    decreases |list|
  {
    if list == [] then p
    else
      var s := list[0];
      assert s in list && forall x :: x in list[1..] ==> x in list;
      if p.servers[s].readreq.None? then ReadPhase(g, e, p, list[1..])
      else if s in e.readable then
        ReadPhase(g, e, ReadTurn(g, e.up, p, s, Script(e.parses, s)), list[1..])
      else ReadPhase(g, e, StayReading(p, s), list[1..])
  }

  // ---------------------------------------------------------------------------------------------------------
  // The round

  /** select() reported nothing or an error: each listed server that is not ready leaves both lists and goes down. */
  function DropUnready(g: Config, up: set<ServerId>, p: Pool, side: Side, ready: set<ServerId>,
                       kept: seq<ServerId>, list: seq<ServerId>, other: seq<ServerId>)
    : (r: (Pool, seq<ServerId>, seq<ServerId>))
    requires Shaped(g, p) && IdsOk(|p.servers|, list)
    ensures Shaped(g, r.0) && |r.0.requests| == |p.requests|
    ensures IsWithin(r.1, kept + list) && IsWithin(r.2, other)
    decreases |list|
  {
    if list == [] then (p, kept, other)
    else
      var s := list[0];
      assert s in list && forall x :: x in list[1..] ==> x in list;
      if s in ready then DropUnready(g, up, p, side, ready, kept + [s], list[1..], other)
      else DropUnready(g, up, Fail(g, up, p, s, side), side, ready, kept, list[1..], Without(other, s))
  }

  /** A round up to the servers' turns to read, with the servers that have theirs. */
  function BeforeRead(g: Config, e: Round, p: Pool): (r: (Pool, seq<ServerId>))
    requires Shaped(g, p)
    ensures Shaped(g, r.0) && |r.0.requests| == |p.requests| && IdsOk(g.numServers, r.1)
  {
    var p0 := p.(sending := [], reading := []);
    var (p1, sending, reading) :=
      if e.nothingReady then DropUnready(g, e.up, p0, SendSide, e.writable, [], p.sending, p.reading)
      else (p0, p.sending, p.reading);
    var (p2, reading2, sending2) :=
      if e.nothingReady then DropUnready(g, e.up, p1, ReadSide, e.readable, [], reading, sending)
      else (p1, reading, sending);
    SendPhase(g, e, p2, sending2, reading2)
  }

  /** mmc_pool_select_impl */
  function Select(g: Config, e: Round, p: Pool): (p': Pool)
    requires Shaped(g, p)
    ensures Shaped(g, p') && |p'.requests| == |p.requests|
  {
    var (p3, reading) := BeforeRead(g, e, p);
    ReadPhase(g, e, p3, reading)
  }
}
