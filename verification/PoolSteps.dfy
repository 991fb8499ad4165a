/** What a single send or a single reply does to one server, and why a reply is always read by the request it
    answers. */
module PoolSteps {
  import opened Basics
  import opened Wrappers
  import opened Sequences
  import opened PoolModel
  import opened PoolInvariant
  import opened PoolRound

  // ---------------------------------------------------------------------------------------------------------
  // One server

  /** The next reply on the stream answers the request in the read slot. If that request is still in the send slot,
      nothing of a later request is on the stream, so dropping the stream loses no other reply. */
  lemma ReplyBelongs(qs: seq<Request>, s: ServerId, v: Server)
    requires ServerOk(qs, s, v) && v.readreq.Some?
    ensures v.wire != [] ==> v.wire[0] == v.readreq.value
    ensures v.sendreq == v.readreq ==> v.wire <= [v.readreq.value]
    ensures v.readreq.value < |qs| && qs[v.readreq.value].io == Some(s)
  {
    var n, m, r := |ReadLine(v)|, |SendLine(v)|, v.readreq.value;
    assert ReadLine(v)[0] == r && r in ReadLine(v);
    if v.sendreq.Some? {
      assert SendLine(v)[0] == v.sendreq.value == ReadLine(v)[n - m];
    }
    if r in v.sendqueue { QueuedLater(v, r); }
  }

  lemma QueuedLater(v: Server, r: RequestId)
    requires Aligned(v) && r in v.sendqueue
    ensures exists k :: 0 < k < |ReadLine(v)| && ReadLine(v)[k] == r
  {
    var k :| 0 <= k < |v.sendqueue| && v.sendqueue[k] == r;
    var n, m := |ReadLine(v)|, |SendLine(v)|;
    assert SendLine(v)[1 + k] == r && ReadLine(v)[n - m..][1 + k] == r;
    assert ReadLine(v)[n - m + 1 + k] == r;
  }

  ghost predicate Sending(qs: seq<Request>, s: ServerId, v: Server, r: RequestId) {
    ServerOk(qs, s, v) && v.sendreq == Some(r) && r < |qs|
  }

  /** The head of the send line, seen in the read line. */
  lemma SendHead(qs: seq<Request>, s: ServerId, v: Server, r: RequestId)
    requires Sending(qs, s, v, r)
    ensures v.status.Connected? && r in ReadLine(v) && |ReadLine(v)| > |Sent(v)|
    ensures ReadLine(v)[|Sent(v)|] == r && ReadLine(v)[|Sent(v)| + 1..] == v.sendqueue
    ensures forall x :: x in v.sendqueue ==> x in ReadLine(v) && x != r
  {
    var n, m := |ReadLine(v)|, |SendLine(v)|;
    assert SendLine(v)[0] == r && SendLine(v)[1..] == v.sendqueue;
    assert ReadLine(v)[n - m] == ReadLine(v)[n - m..][0];
    assert ReadLine(v)[n - m..][1..] == ReadLine(v)[n - m + 1..];
    forall x | x in v.sendqueue ensures x in ReadLine(v) && x != r {
      var k :| 0 <= k < |v.sendqueue| && v.sendqueue[k] == x;
      assert ReadLine(v)[n - m + 1..][k] == x;
      assert ReadLine(v)[n - m + 1 + k] == x;
    }
  }

  /** After a write that leaves something to send. */
  lemma PartServerOk(qs: seq<Request>, s: ServerId, v: Server, r: RequestId, n: nat)
    requires Sending(qs, s, v, r) && qs[r].idx + Written(qs[r], n) < |qs[r].sendbuf|
    ensures var k := Written(qs[r], n);
            ServerOk(qs[r := qs[r].(idx := qs[r].idx + k)], s,
                     v.(wire := if qs[r].idx == 0 && k > 0 then v.wire + [r] else v.wire))
  {
    SendHead(qs, s, v, r);
    var k := Written(qs[r], n);
    var qs' := qs[r := qs[r].(idx := qs[r].idx + k)];
    var v' := v.(wire := if qs[r].idx == 0 && k > 0 then v.wire + [r] else v.wire);
    assert ReadLine(v') == ReadLine(v) && SendLine(v') == SendLine(v);
    assert Sent(v') == Sent(v);
    assert Aligned(v');
    hide Aligned, Sent, ReadLine, SendLine;
    assert WireOk(qs', v') by { assert forall x :: x in v.sendqueue ==> qs'[x] == qs[x]; }
    assert StreamOk(qs', s, v');
  }

  /** The send queue of `v` moved up by one: its head, if any, is in the send slot of `v'` with its stream set. */
  ghost predicate SlotMoved(qs: seq<Request>, qs': seq<Request>, s: ServerId, v: Server, v': Server) {
    && v'.sendreq == (if v.sendqueue == [] then None else Some(v.sendqueue[0]))
    && v'.sendqueue == (if v.sendqueue == [] then [] else v.sendqueue[1..])
    && |qs'| == |qs|
    && (forall x :: x in v.sendqueue && x < |qs| ==>
          qs'[x] == if x == v.sendqueue[0] then qs[x].(io := Some(s)) else qs[x])
  }

  lemma SlotMovedWire(qs: seq<Request>, qs': seq<Request>, s: ServerId, v: Server, v': Server)
    requires SlotMoved(qs, qs', s, v, v') && Aligned(v) && WireOk(qs, v) && LengthsPositive(qs)
    requires Aligned(v') && v'.wire == Sent(v')
    requires forall x :: x in Sent(v') ==> x < |qs'| && qs'[x].idx == |qs'[x].sendbuf|
    ensures WireOk(qs', v')
  {
    hide Aligned;
    assert v.sendqueue != [] ==> v.sendqueue[0] in v.sendqueue;
    assert forall x :: x in v'.sendqueue ==> x in v.sendqueue;
    assert Partial(qs', v') == [];
  }

  lemma SlotMovedStream(qs: seq<Request>, qs': seq<Request>, s: ServerId, v: Server, v': Server)
    requires SlotMoved(qs, qs', s, v, v') && ServerShaped(|qs|, v) && StreamOk(qs, s, v) && ServerShaped(|qs'|, v')
    requires forall x :: x in ReadLine(v') ==> x in ReadLine(v)
    requires forall x :: x in ReadLine(v') && x !in v.sendqueue ==> qs'[x].io == qs[x].io
    ensures StreamOk(qs', s, v')
  {
    forall x | x in ReadLine(v') && x !in v'.sendqueue ensures qs'[x].io == Some(s) {
      if x in v.sendqueue {
        assert v.sendqueue == [v.sendqueue[0]] + v.sendqueue[1..];
        assert x == v.sendqueue[0];
      }
    }
  }

  lemma TailUnique(a: seq<RequestId>)
    requires a != [] && NoDuplicates(a)
    ensures NoDuplicates(a[1..]) && a[0] !in a[1..]
  {
  }

  /** After a write that completes the request, with the next one in the send slot. */
  lemma FullServerOk(qs: seq<Request>, s: ServerId, v: Server, r: RequestId, v': Server, qs': seq<Request>)
    requires Sending(qs, s, v, r) && LengthsPositive(qs) && SlotMoved(qs, qs', s, v, v')
    requires v'.readreq == v.readreq && v'.readqueue == v.readqueue && v'.status == v.status
    requires v'.wire == if qs[r].idx == 0 then v.wire + [r] else v.wire
    requires forall x :: 0 <= x < |qs| && x !in v.sendqueue ==>
               qs'[x] == if x == r then qs[r].(idx := |qs[r].sendbuf|) else qs[x]
    ensures ServerOk(qs', s, v') && ReadLine(v') == ReadLine(v)
  {
    SendHead(qs, s, v, r);
    FullAligned(qs, s, v, r, v');
    SentApart(v);
    SlotMovedWire(qs, qs', s, v, v');
    assert ServerShaped(|qs'|, v');
    SlotMovedStream(qs, qs', s, v, v');
  }

  /** A request that is sent in full is not in the send line any more. */
  lemma SentApart(v: Server)
    requires Aligned(v)
    ensures |SendLine(v)| <= |ReadLine(v)| && forall x :: x in Sent(v) ==> x !in SendLine(v)
  {
    var (send, read, n) := (SendLine(v), ReadLine(v), |ReadLine(v)| - |SendLine(v)|);
    forall i, j | 0 <= i < n && 0 <= j < |send| ensures read[i] != send[j] {
      assert send[j] == read[n..][j] == read[n + j];
    }
  }

  lemma FullAligned(qs: seq<Request>, s: ServerId, v: Server, r: RequestId, v': Server)
    requires Sending(qs, s, v, r)
    requires v'.sendreq == (if v.sendqueue == [] then None else Some(v.sendqueue[0]))
    requires v'.sendqueue == (if v.sendqueue == [] then [] else v.sendqueue[1..])
    requires v'.readreq == v.readreq && v'.readqueue == v.readqueue && v'.status == v.status
    requires v'.wire == if qs[r].idx == 0 then v.wire + [r] else v.wire
    ensures Aligned(v') && ReadLine(v') == ReadLine(v) && SendLine(v') == v.sendqueue
    ensures v'.wire == Sent(v') && Sent(v') == Sent(v) + [r]
  {
    SendHead(qs, s, v, r);
    assert ReadLine(v') == ReadLine(v);
    assert SendLine(v') == v.sendqueue;
    var n := |Sent(v)|;
    assert |SendLine(v')| == |ReadLine(v')| - n - 1;
    OneMore(ReadLine(v), n);
    hide NoDuplicates, IsSuffix, WireOk, StreamOk;
  }

  lemma OneMore(s: seq<RequestId>, n: nat)
    requires n < |s|
    ensures s[..n + 1] == s[..n] + [s[n]]
  {
  }

  /** After a reply to a request that was sent in full. */
  lemma AnsweredServerOk(qs: seq<Request>, s: ServerId, v: Server, v': Server)
    requires ServerOk(qs, s, v) && v.readreq.Some? && v.sendreq != v.readreq && v.wire != []
    requires v' == v.(wire := v.wire[1..],
                      readreq := if v.readqueue == [] then None else Some(v.readqueue[0]),
                      readqueue := if v.readqueue == [] then [] else v.readqueue[1..])
    ensures ServerOk(qs, s, v') && ReadLine(v') == ReadLine(v)[1..]
  {
    AnsweredAligned(v, v');
    assert Partial(qs, v') == Partial(qs, v);
    assert forall x :: x in ReadLine(v') ==> x in ReadLine(v);
    hide Aligned, NoDuplicates, IsSuffix;
    AnsweredWire(qs, v, v');
  }

  lemma AnsweredWire(qs: seq<Request>, v: Server, v': Server)
    requires Aligned(v) && Aligned(v') && WireOk(qs, v) && v.wire != []
    requires Sent(v) != [] && Sent(v') == Sent(v)[1..] && Partial(qs, v') == Partial(qs, v)
    requires v'.wire == v.wire[1..] && v'.sendqueue == v.sendqueue && v'.sendreq == v.sendreq
    ensures WireOk(qs, v')
  {
    assert (Sent(v) + Partial(qs, v))[1..] == Sent(v)[1..] + Partial(qs, v);
  }

  lemma LineRest(slot: Option<RequestId>, queue: seq<RequestId>)
    requires slot.Some?
    ensures var slot' := if queue == [] then None else Some(queue[0]);
            Listed(slot') + (if queue == [] then [] else queue[1..]) == (Listed(slot) + queue)[1..]
    ensures (Listed(slot) + queue)[0] == slot.value
  {
  }

  lemma NothingSent(v: Server)
    requires Aligned(v) && v.readreq.Some? && |SendLine(v)| == |ReadLine(v)|
    ensures v.sendreq == v.readreq
  {
    assert SendLine(v) == ReadLine(v);
    assert SendLine(v)[0] == v.readreq.value;
  }

  lemma AnsweredAligned(v: Server, v': Server)
    requires Aligned(v) && v.readreq.Some? && v.sendreq != v.readreq
    requires v'.readreq == (if v.readqueue == [] then None else Some(v.readqueue[0]))
    requires v'.readqueue == (if v.readqueue == [] then [] else v.readqueue[1..])
    requires v'.sendreq == v.sendreq && v'.sendqueue == v.sendqueue && v'.status == v.status
    ensures Aligned(v') && ReadLine(v') == ReadLine(v)[1..] && SendLine(v') == SendLine(v)
    ensures Sent(v) != [] && Sent(v') == Sent(v)[1..]
  {
    if |ReadLine(v)| == |SendLine(v)| { NothingSent(v); }
    LineRest(v.readreq, v.readqueue);
    TailUnique(ReadLine(v));
    SuffixRest(SendLine(v), ReadLine(v));
    hide NoDuplicates, IsSuffix;
  }

  /** After an early reply, once the stream was dropped and both slots moved on. */
  lemma DroppedServerOk(qs: seq<Request>, s: ServerId, v: Server, v': Server, qs': seq<Request>)
    requires ServerOk(qs, s, v) && v.readreq.Some? && v.sendreq == v.readreq && LengthsPositive(qs)
    requires SlotMoved(qs, qs', s, v, v')
    requires v'.readreq == (if v.readqueue == [] then None else Some(v.readqueue[0]))
    requires v'.readqueue == (if v.readqueue == [] then [] else v.readqueue[1..])
    requires v'.wire == [] && v'.status == if v.sendqueue == [] then Disconnected else Connected
    requires forall x :: 0 <= x < |qs| && x !in v.sendqueue ==> qs'[x].io == qs[x].io
    ensures ServerOk(qs', s, v') && ReadLine(v') == ReadLine(v)[1..]
  {
    DroppedAligned(qs, s, v, v');
    SlotMovedWire(qs, qs', s, v, v');
    assert forall x :: x in ReadLine(v') ==> x in ReadLine(v);
    assert ServerShaped(|qs'|, v');
    SlotMovedStream(qs, qs', s, v, v');
  }

  lemma DroppedAligned(qs: seq<Request>, s: ServerId, v: Server, v': Server)
    requires ServerOk(qs, s, v) && v.readreq.Some? && v.sendreq == v.readreq
    requires v'.sendreq == (if v.sendqueue == [] then None else Some(v.sendqueue[0]))
    requires v'.sendqueue == (if v.sendqueue == [] then [] else v.sendqueue[1..])
    requires v'.readreq == (if v.readqueue == [] then None else Some(v.readqueue[0]))
    requires v'.readqueue == (if v.readqueue == [] then [] else v.readqueue[1..])
    requires v'.wire == [] && v'.status == if v.sendqueue == [] then Disconnected else Connected
    ensures Aligned(v') && v'.wire == Sent(v') && ReadLine(v') == ReadLine(v)[1..] && SendLine(v') == ReadLine(v')
  {
    var r := v.readreq.value;
    assert r in ReadLine(v);
    SendHead(qs, s, v, r);
    assert ReadLine(v)[0] == r && |Sent(v)| == 0;
    TailUnique(ReadLine(v));
    assert ReadLine(v') == ReadLine(v)[1..] == v.readqueue;
    assert SendLine(v') == v.sendqueue == v.readqueue;
    assert ReadLine(v')[0..] == ReadLine(v');
  }
}
