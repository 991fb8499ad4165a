/** What every step of the pool keeps. */
module PoolInvariant {
  import opened Basics
  import opened Wrappers
  import opened Sequences
  import opened Routing
  import opened PoolModel

  /** The requests that are sent in full and wait for their reply. */
  function Sent(v: Server): seq<RequestId>
    requires |SendLine(v)| <= |ReadLine(v)|
  {
    ReadLine(v)[..|ReadLine(v)| - |SendLine(v)|]
  }

  /** The request in the send slot, if some of it is on the stream. */
  function Partial(qs: seq<Request>, v: Server): seq<RequestId>
  {
    match v.sendreq
    case None => []
    case Some(r) => if r < |qs| && qs[r].idx > 0 then [r] else []
  }

  /** Pipeline alignment: what is still to be sent is the tail end of what is still to be read, so the read side
      holds every request of the server. */
  ghost predicate LinesAligned(v: Server) {
    && (v.sendreq.None? ==> v.sendqueue == [])
    && (v.readreq.None? ==> v.readqueue == [])
    && IsSuffix(SendLine(v), ReadLine(v))
    && NoDuplicates(ReadLine(v))
  }

  /** And only a connected server holds requests. */
  ghost predicate Aligned(v: Server) {
    LinesAligned(v) && (!v.status.Connected? ==> ReadLine(v) == [])
  }

  /** The stream carries exactly the requests whose replies are due, in the order in which they will be read. */
  ghost predicate WireOk(qs: seq<Request>, v: Server)
    requires Aligned(v)
  {
    && v.wire == Sent(v) + Partial(qs, v)
    && (forall r :: r in Sent(v) ==> r < |qs| && qs[r].idx == |qs[r].sendbuf|)
    && (forall r :: r in v.sendqueue ==> r < |qs| && qs[r].idx == 0)
    && (v.sendreq.Some? ==> v.sendreq.value < |qs| && qs[v.sendreq.value].idx < |qs[v.sendreq.value].sendbuf|)
  }

  /** Every request that left the send queue has its stream assigned. */
  ghost predicate StreamOk(qs: seq<Request>, s: ServerId, v: Server)
    requires ServerShaped(|qs|, v)
  {
    forall r :: r in ReadLine(v) && r !in v.sendqueue ==> qs[r].io == Some(s)
  }

  ghost predicate ServerOk(qs: seq<Request>, s: ServerId, v: Server) {
    ServerShaped(|qs|, v) && Aligned(v) && WireOk(qs, v) && StreamOk(qs, s, v)
  }

  ghost predicate On(p: Pool, s: ServerId, r: RequestId) {
    s < |p.servers| && r in ReadLine(p.servers[s])
  }

  /** The request is on some server or in the free list. */
  ghost predicate Tracked(p: Pool, r: RequestId) {
    r in p.free || exists s :: On(p, s, r)
  }

  /** A request is in one place only, and there only once. */
  ghost predicate Exclusive(p: Pool) {
    && (forall s, t, r :: On(p, s, r) && On(p, t, r) ==> s == t)
    && (forall s, r :: On(p, s, r) ==> r !in p.free)
    && NoDuplicates(p.free)
  }

  function ListOf(side: Side, p: Pool): seq<ServerId> {
    if side.SendSide? then p.sending else p.reading
  }

  /** No lost wakeup. The pool's list names every server with a filled slot, except those in `waiting`, the part
      of the previous list which the current round has still to visit. */
  ghost predicate Listening(p: Pool, side: Side, waiting: set<ServerId>) {
    && NoDuplicates(ListOf(side, p))
    && (forall s :: s in ListOf(side, p) ==> s < |p.servers| && s !in waiting)
    && (forall s :: 0 <= s < |p.servers| ==>
          (SlotOf(side, p.servers[s]).Some?
           <==> s in ListOf(side, p) || (s in waiting && !p.servers[s].status.Failed?)))
  }

  ghost predicate Awake(p: Pool, toSend: set<ServerId>, toRead: set<ServerId>) {
    Listening(p, SendSide, toSend) && Listening(p, ReadSide, toRead)
  }

  /** Every reply was read by the parser of the request it answers. */
  ghost predicate Attributed(p: Pool) {
    forall e :: e in p.log ==> e.0 == e.1
  }

  ghost predicate ServersOk(p: Pool) {
    forall s :: 0 <= s < |p.servers| ==> ServerOk(p.requests, s, p.servers[s])
  }

  ghost predicate LengthsPositive(qs: seq<Request>) {
    forall r :: 0 <= r < |qs| ==> |qs[r].sendbuf| > 0
  }

  ghost predicate LengthsOk(p: Pool) { LengthsPositive(p.requests) }

  ghost predicate PoolOk(g: Config, p: Pool, toSend: set<ServerId>, toRead: set<ServerId>) {
    && Shaped(g, p)
    && ServersOk(p)
    && LengthsOk(p)
    && Exclusive(p)
    && Awake(p, toSend, toRead)
    && Attributed(p)
  }

  /** What scheduling and failover leave alone: live servers keep their requests in order and their stream, a
      failed server stays failed, only a server that accepts connections becomes live, and no request other than
      the ones being moved changes. */
  ghost predicate Calm(up: set<ServerId>, p: Pool, p': Pool, moved: seq<RequestId>) {
    && |p'.servers| == |p.servers| && |p'.requests| == |p.requests| && p'.log == p.log
    && (forall s :: 0 <= s < |p.servers| ==>
          && (p.servers[s].status.Failed? ==> p'.servers[s].status.Failed?)
          && (p'.servers[s].status.Connected? ==> p.servers[s].status.Connected? || s in up))
    && (forall r :: 0 <= r < |p.requests| && Tracked(p, r) && r !in moved ==> p'.requests[r] == p.requests[r])
  }

  ghost predicate Undisturbed(p: Pool, p': Pool, s: ServerId)
    requires s < |p.servers| == |p'.servers|
  {
    var v, v' := p.servers[s], p'.servers[s];
    v.status.Connected? ==> v'.status.Connected? && v'.wire == v.wire && ReadLine(v) <= ReadLine(v')
  }

  ghost predicate Steady(p: Pool, p': Pool) {
    |p'.servers| == |p.servers| && forall s :: 0 <= s < |p.servers| ==> Undisturbed(p, p', s)
  }

  /** The requests `ids` found a place: each is on a server, or in the free list because nothing more could be
      tried for it. Everything else stays as it was. */
  ghost predicate Carried(g: Config, up: set<ServerId>, p: Pool, p': Pool, ids: seq<RequestId>) {
    && Calm(up, p, p', ids)
    && (forall x :: Tracked(p', x) <==> Tracked(p, x) || x in ids)
    && (forall x :: x in p'.free ==> x in p.free || GaveUp(g, p', x))
    && (forall x :: x in p.free ==> x in p'.free)
  }

  ghost predicate GaveUp(g: Config, p: Pool, r: RequestId) {
    r < |p.requests| && !CanFailOver(g, p.requests[r])
  }

  // ---------------------------------------------------------------------------------------------------------
  // Single updates

  lemma ServerOkFrame(qs: seq<Request>, qs': seq<Request>, s: ServerId, v: Server)
    requires ServerOk(qs, s, v) && |qs| <= |qs'|
    requires forall r :: r in ReadLine(v) ==> qs'[r] == qs[r]
    ensures ServerOk(qs', s, v)
  {
    assert forall r :: r in SendLine(v) ==> r in ReadLine(v);
  }

  /** `v'` is `v` with `r` added behind both lines. */
  ghost predicate Appended(v: Server, v': Server, r: RequestId) {
    && v'.sendreq == (if v.sendreq.None? then Some(r) else v.sendreq)
    && v'.sendqueue == (if v.sendreq.None? then v.sendqueue else PushUnique(v.sendqueue, r))
    && v'.readreq == (if v.readreq.None? then Some(r) else v.readreq)
    && v'.readqueue == (if v.readreq.None? then v.readqueue else PushUnique(v.readqueue, r))
    && v'.status == (if v.sendreq.None? then Connected else v.status)
    && v'.wire == v.wire
  }

  lemma AppendedLines(v: Server, v': Server, r: RequestId)
    requires Appended(v, v', r) && LinesAligned(v) && r !in ReadLine(v)
    ensures ReadLine(v') == ReadLine(v) + [r] && SendLine(v') == SendLine(v) + [r]
    ensures |SendLine(v)| <= |ReadLine(v)| && |SendLine(v')| <= |ReadLine(v')| && Sent(v') == Sent(v)
    ensures v'.sendqueue == if v.sendreq.None? then [] else v.sendqueue + [r]
  {
    SuffixIn(SendLine(v), ReadLine(v));
    hide IsSuffix, NoDuplicates, PushUnique;
    LineAppended(v.sendreq, v.sendqueue, r);
    LineAppended(v.readreq, v.readqueue, r);
    FrontStays(ReadLine(v), r, |ReadLine(v)| - |SendLine(v)|);
  }

  lemma LineAppended(slot: Option<RequestId>, queue: seq<RequestId>, r: RequestId)
    requires r !in Listed(slot) + queue && (slot.None? ==> queue == [])
    ensures Listed(if slot.None? then Some(r) else slot) + (if slot.None? then queue else PushUnique(queue, r))
            == Listed(slot) + queue + [r]
    ensures (if slot.None? then queue else PushUnique(queue, r)) == if slot.None? then [] else queue + [r]
  {
    assert r !in queue by { assert forall x :: x in queue ==> x in Listed(slot) + queue; }
  }

  lemma FrontStays(s: seq<RequestId>, r: RequestId, n: nat)
    requires n <= |s|
    ensures (s + [r])[..n] == s[..n]
  {
  }

  lemma AppendedLinesAligned(v: Server, v': Server, r: RequestId)
    requires Appended(v, v', r) && LinesAligned(v) && r !in ReadLine(v)
    ensures LinesAligned(v') && ReadLine(v') == ReadLine(v) + [r] && SendLine(v') == SendLine(v) + [r]
  {
    AppendedLines(v, v', r);
    SnocUnique(ReadLine(v), r);
    SuffixSnoc(SendLine(v), ReadLine(v), r);
    hide NoDuplicates, IsSuffix, PushUnique;
  }

  lemma AppendedAligned(v: Server, v': Server, r: RequestId)
    requires Appended(v, v', r) && Aligned(v) && r !in ReadLine(v) && !v.status.Failed?
    ensures Aligned(v')
  {
    AppendedLinesAligned(v, v', r);
    SuffixIn(SendLine(v), ReadLine(v));
    assert v.sendreq.Some? ==> |SendLine(v)| > 0;
    hide LinesAligned, PushUnique;
  }

  function Queued(q: Request, s: ServerId, first: bool): Request {
    if first then q.(idx := 0, io := Some(s)) else q.(idx := 0)
  }

  lemma AppendedShaped(n: nat, v: Server, v': Server, r: RequestId)
    requires Appended(v, v', r) && Aligned(v) && r !in ReadLine(v) && ServerShaped(n, v) && r < n
    ensures ServerShaped(n, v')
  {
    AppendedLines(v, v', r);
  }

  lemma AppendedStream(qs: seq<Request>, s: ServerId, v: Server, v': Server, r: RequestId)
    requires ServerShaped(|qs|, v) && Aligned(v) && StreamOk(qs, s, v) && r < |qs| && r !in ReadLine(v)
    requires Appended(v, v', r) && ServerShaped(|qs|, v')
    ensures StreamOk(qs[r := Queued(qs[r], s, v.sendreq.None?)], s, v')
  {
    AppendedLines(v, v', r);
    var qs' := qs[r := Queued(qs[r], s, v.sendreq.None?)];
    forall x | x in ReadLine(v') && x !in v'.sendqueue ensures qs'[x].io == Some(s) {
      if x != r {
        assert x in ReadLine(v) && x !in v.sendqueue;
      }
    }
  }

  lemma AppendedWire(qs: seq<Request>, s: ServerId, v: Server, v': Server, r: RequestId)
    requires ServerShaped(|qs|, v) && Aligned(v) && WireOk(qs, v) && r < |qs| && r !in ReadLine(v)
    requires |qs[r].sendbuf| > 0
    requires Appended(v, v', r) && ServerShaped(|qs|, v') && Aligned(v')
    ensures WireOk(qs[r := Queued(qs[r], s, v.sendreq.None?)], v')
  {
    AppendedLines(v, v', r);
    SentIn(v);
    SlotIn(v);
    hide *;
    AddedLast(v, v', r);
    QueuedFields(qs[r], s, v.sendreq.None?);
    WireAfter(qs, qs[r := Queued(qs[r], s, v.sendreq.None?)], v, v', r);
  }

  lemma AddedLast(v: Server, v': Server, r: RequestId)
    requires Appended(v, v', r)
    ensures v'.wire == v.wire && v'.sendreq == (if v.sendreq.None? then Some(r) else v.sendreq)
    ensures forall x :: x in v'.sendqueue ==> x == r || x in v.sendqueue
  {
  }

  lemma QueuedFields(q: Request, s: ServerId, first: bool)
    ensures Queued(q, s, first).idx == 0 && Queued(q, s, first).sendbuf == q.sendbuf
  {
  }

  /** A change to the request that is added last, and to no other. */
  lemma WireAfter(qs: seq<Request>, qs': seq<Request>, v: Server, v': Server, r: RequestId)
    requires Aligned(v) && Aligned(v') && WireOk(qs, v) && |qs'| == |qs| && r < |qs|
    requires |SendLine(v)| <= |ReadLine(v)| && |SendLine(v')| <= |ReadLine(v')|
    requires Sent(v') == Sent(v) && v'.wire == v.wire && r !in ReadLine(v)
    requires forall x :: x in Sent(v) ==> x in ReadLine(v)
    requires v.sendreq.Some? ==> v.sendreq.value in ReadLine(v)
    requires forall x :: 0 <= x < |qs| && x != r ==> qs'[x] == qs[x]
    requires qs'[r].idx == 0 && |qs'[r].sendbuf| > 0
    requires v'.sendreq == (if v.sendreq.None? then Some(r) else v.sendreq)
    requires forall x :: x in v'.sendqueue ==> x == r || x in v.sendqueue
    ensures WireOk(qs', v')
  {
    hide Aligned, Sent, ReadLine, SendLine;
  }

  lemma SentIn(v: Server)
    requires |SendLine(v)| <= |ReadLine(v)|
    ensures forall x :: x in Sent(v) ==> x in ReadLine(v)
  {
  }

  lemma SlotIn(v: Server)
    requires Aligned(v)
    ensures v.sendreq.Some? ==> v.sendreq.value in ReadLine(v)
  {
    SuffixIn(SendLine(v), ReadLine(v));
    assert v.sendreq.Some? ==> v.sendreq.value in SendLine(v);
  }

  lemma AppendedServerOk(qs: seq<Request>, s: ServerId, v: Server, v': Server, r: RequestId)
    requires ServerOk(qs, s, v) && r < |qs| && r !in ReadLine(v) && !v.status.Failed?
    requires |qs[r].sendbuf| > 0
    requires Appended(v, v', r)
    ensures ServerOk(qs[r := Queued(qs[r], s, v.sendreq.None?)], s, v')
  {
    AppendedShaped(|qs|, v, v', r);
    AppendedAligned(v, v', r);
    AppendedStream(qs, s, v, v', r);
    AppendedWire(qs, s, v, v', r);
  }
}
