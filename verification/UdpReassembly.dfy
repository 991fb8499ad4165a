/** Putting the payloads of UDP datagrams together (mmc_request_read_udp in src/memcache_pool.c). */
module UdpReassembly {
  import opened Basics
  import opened Wrappers
  import opened Sequences

  const HEADER := 8
  const MAX_DATAGRAM := 1400

  type U16 = n: int | 0 <= n < 0x1_0000

  datatype Status = Disconnected | Connected | Unknown | Failed
  datatype Outcome = Accepted | More | Retry | Failure

  /** The stream's buffer, of which the first `idx` bytes are consumed, with the udp fields of the request being read:
      its id, the next sequence number, and the number of datagrams in the reply (0: none seen yet). */
  datatype Reading = Reading(value: seq<Byte>, idx: nat, reqid: U16, seqid: U16, total: U16, status: Status) {
    predicate Drained() { idx >= |value| }

    /** Once there is anything in the buffer, a header was skipped at its start. */
    predicate Valid() { idx <= |value| && (value != [] ==> idx >= HEADER) }

    /** What a parser can still read. */
    function Exposed(): seq<Byte>
      requires Valid()
    {
      value[idx..]
    }
  }

  /** A 16-bit number in network byte order. */
  function Number(d: seq<Byte>, at: nat): U16
    requires at + 2 <= |d|
  {
    d[at] as int * 0x100 + d[at + 1]
  }

  predicate Fits(d: seq<Byte>) { HEADER <= |d| <= MAX_DATAGRAM }

  function Reqid(d: seq<Byte>): U16 requires Fits(d) { Number(d, 0) }
  function Seqid(d: seq<Byte>): U16 requires Fits(d) { Number(d, 2) }
  function Total(d: seq<Byte>): U16 requires Fits(d) { Number(d, 4) }
  function Payload(d: seq<Byte>): seq<Byte> requires Fits(d) { d[HEADER..] }

  function Next(seqid: U16): U16 { (seqid + 1) % 0x1_0000 }

  /** mmc_server_failure. */
  function ServerFailure(s: Reading): (Reading, Outcome) {
    match s.status
    case Disconnected => (s, Retry)
    case Unknown => (s.(status := Disconnected), Retry)
    case _ => (s, Failure)
  }

  /** The buffer with the datagram appended. When unread bytes are left in front, the header is skipped but the new
      length counts it, so that the last eight bytes of the datagram show up twice. */
  function Extended(value: seq<Byte>, idx: nat, d: seq<Byte>): seq<Byte>
    requires Fits(d)
  {
    if idx > 0 then value + Payload(d) + d[|d| - HEADER..] else value + d
  }

  lemma ExtendedLength(value: seq<Byte>, idx: nat, d: seq<Byte>)
    requires Fits(d)
    ensures |Extended(value, idx, d)| == |value| + |d| && Extended([], 0, d) == d
  {
    assert [] + d == d;
  }

  /** A new request on the stream; old bytes stay in the buffer. */
  function Begun(s: Reading, id: U16): Reading { s.(reqid := id, seqid := 0, total := 0) }

  /** The effect of reading the datagram d. */
  function Receive(s: Reading, d: seq<Byte>): (Reading, Outcome)
    requires s.Valid()
  {
    var s := if s.Drained() then s.(value := [], idx := 0) else s;
    if !Fits(d) then ServerFailure(s)
    else
      var s := if s.total == 0 && s.reqid == Reqid(d) then s.(seqid := Seqid(d), total := Total(d)) else s;
      if s.reqid != Reqid(d) || s.seqid != Seqid(d) then
        (s.(status := Failed), if Reqid(d) < s.reqid then More else Retry)
      else
        var s := s.(seqid := Next(s.seqid));
        (s.(value := Extended(s.value, s.idx, d), idx := if s.idx > 0 then s.idx else HEADER), Accepted)
  }

  class Reader {
    var value: seq<Byte>
    var idx: nat
    var reqid: U16
    var seqid: U16
    var total: U16
    var status: Status
    var nextId: U16   // mmc_t.reqid

    function View(): Reading reads this { Reading(value, idx, reqid, seqid, total, status) }

    /** The UDP branch of mmc_pool_slot_send: the request takes the server's next id, and so does the header in front of
        the command. A server that reads the datagram finds the id and the command. */
    method Begin(command: seq<Byte>) returns (datagram: seq<Byte>)
      requires |command| <= MAX_DATAGRAM - HEADER
      modifies this
      ensures View() == Begun(old(View()), old(nextId)) && nextId == Next(old(nextId))
      ensures Fits(datagram) && (Reqid(datagram), Seqid(datagram), Total(datagram)) == (reqid, 0, 1)
      ensures Payload(datagram) == command
    {
      reqid, seqid, total := nextId, 0, 0;
      nextId := (nextId + 1) % 0x1_0000;
      datagram := Frame(reqid, 0, 1, command);
      FrameFields(reqid, 0, 1, command);
    }

    /** A parser takes what there is. */
    method TakeAll() returns (bytes: seq<Byte>)
      requires View().Valid()
      modifies this`idx
      ensures View().Valid() && View().Drained() && bytes == old(View().Exposed())
      ensures View() == old(View()).(idx := |value|)
    {
      bytes := value[idx..];
      idx := |value|;
    }

    /** A datagram is read, and if it is taken, a parser takes its payload. */
    method Hear(d: seq<Byte>) returns (outcome: Outcome, bytes: seq<Byte>)
      requires View().Valid() && View().Drained()
      modifies this
      ensures View().Valid() && View().Drained() && reqid == old(reqid)
      ensures outcome == Receive(old(View()), d).1 && Expected(View()) == Expected(Receive(old(View()), d).0)
      ensures (outcome == Accepted ==> Fits(d)) && bytes == if outcome == Accepted then Payload(d) else []
    {
      AcceptedExactly(View(), d);
      DrainedAdds(View(), d);
      hide Receive, Fits, Payload, Due, Stale, Expecting;
      outcome := Read(d);
      bytes := TakeAll();
    }

    /** A request sent on a drained stream, and the rounds in which datagrams arrive and are parsed, until the parser is
        done or the request leaves the stream. */
    method Exchange(command: seq<Byte>, complete: seq<Byte> -> bool, arrivals: seq<seq<Byte>>)
      returns (delivered: seq<Byte>, ending: Ending)
      requires View().Valid() && View().Drained() && |command| <= MAX_DATAGRAM - HEADER
      modifies this
      ensures View().Valid() && View().Drained()
      ensures var (taken, end) := Heard(old(nextId), None, complete, [], arrivals);
              delivered == Payloads(taken) && ending == end
      ensures forall parts | IsReply(complete, parts) && Genuine(arrivals, old(nextId), parts) ::
                ending == Done && delivered == Joined(parts) <==> Arrives(arrivals, old(nextId), 0, |parts|, parts)
    {
      ghost var id := nextId;
      var datagram := Begin(command);
      hide *;
      Starts(id, complete, arrivals);
      delivered, ending := [], Waiting;
      ghost var taken: seq<seq<Byte>> := [];
      var rest := arrivals;
      while rest != [] && ending == Waiting
        invariant View().Valid() && View().Drained() && reqid == id
        invariant Resumes(id, complete, arrivals, Expected(View()), taken, delivered, rest, ending)
        decreases |rest|
      {
        var d := rest[0];
        assert rest == [d] + rest[1..];
        Continues(complete, arrivals, View(), d, taken, delivered, rest[1..]);
        var outcome, bytes := Hear(d);
        assert delivered + [] == delivered;
        delivered := delivered + bytes;
        if outcome == Accepted {
          taken := taken + [d];
          if complete(delivered) { ending := Done; }
        } else if outcome != More {
          ending := Left;
        }
        rest := rest[1..];
      }
      Stops(id, complete, arrivals, Expected(View()), taken, delivered, rest, ending);
      forall parts | IsReply(complete, parts) && Genuine(arrivals, id, parts)
        ensures ending == Done && delivered == Joined(parts) <==> Arrives(arrivals, id, 0, |parts|, parts)
      {
        DeliveredExactly(id, complete, arrivals, parts);
      }
    }

    method Fail() returns (outcome: Outcome)
      modifies this`status
      ensures (View(), outcome) == ServerFailure(old(View()))
    {
      if status == Disconnected { return Retry; }
      if status == Unknown {
        status := Disconnected;
        return Retry;
      }
      return Failure;
    }

    /** Lines 288-299: skips the header, by moving the payload over it if there are bytes in front. */
    method Take(d: seq<Byte>)
      requires View().Valid() && Fits(d) && (idx >= |value| ==> idx == 0)
      modifies this`value, this`idx
      ensures value == Extended(old(value), old(idx), d) && idx == (if old(idx) > 0 then old(idx) else HEADER)
      ensures View().Valid()
    {
      var memory := value + d;
      if idx > 0 {
        // memmove over the header; the bytes behind what was moved stay as they were
        memory := memory[..|value|] + memory[|value| + HEADER..] + memory[|memory| - HEADER..];
        assert memory == value + Payload(d) + d[|d| - HEADER..];
      } else {
        idx := HEADER;
      }
      value := memory;
    }

    /** mmc_request_read_udp; `sent` is the whole datagram, of which at most 1401 bytes are read. */
    method Read(sent: seq<Byte>) returns (outcome: Outcome)
      requires View().Valid()
      modifies this
      ensures (View(), outcome) == Receive(old(View()), sent) && View().Valid()
    {
      hide Number, Extended;
      if idx >= |value| {
        value, idx := [], 0;
      }
      var d := if |sent| > MAX_DATAGRAM + 1 then sent[..MAX_DATAGRAM + 1] else sent;
      if |d| < HEADER || |d| > MAX_DATAGRAM {
        outcome := Fail();
        return;
      }
      var (id, number) := (Number(d, 0), Number(d, 2));
      if total == 0 && reqid == id {
        seqid, total := number, Number(d, 4);
      }
      if reqid != id || seqid != number {
        status := Failed;
        return if id < reqid then More else Retry;
      }
      seqid := (seqid + 1) % 0x1_0000;

      Take(d);
      return Accepted;
    }
  }

  // ---------------------------------------------------------------------------------------------------------
  // One datagram

  /** A datagram that the reader of request `reqid` takes, given the number it expects (None: any will do). */
  predicate Due(reqid: U16, next: Option<U16>, d: seq<Byte>) {
    Fits(d) && Reqid(d) == reqid && (next == None || next == Some(Seqid(d)))
  }

  /** A datagram of an earlier request. */
  predicate Stale(reqid: U16, d: seq<Byte>) { Fits(d) && Reqid(d) < reqid }

  function Expected(s: Reading): Option<U16> { if s.total == 0 then None else Some(s.seqid) }

  /** Exactly the datagrams of the right size, of this request and with the expected number are taken, and exactly those
      with a smaller request id are passed over. At any other the request leaves the stream. */
  lemma AcceptedExactly(s: Reading, d: seq<Byte>)
    requires s.Valid()
    ensures Receive(s, d).1 == Accepted <==> Due(s.reqid, Expected(s), d)
    ensures Receive(s, d).1 == More <==> Stale(s.reqid, d)
    ensures Receive(s, d).0.Valid() && Receive(s, d).0.reqid == s.reqid
    ensures Receive(s, d).1 == Accepted || Receive(s, d).1 == More ==> 8 <= |d| <= 1400
    ensures 8 <= |d| <= 1400 && Receive(s, d).1 != Accepted ==> Receive(s, d).0.status == Failed
    ensures !(8 <= |d| <= 1400) ==> (Receive(s, d).1 == Retry <==> s.status == Disconnected || s.status == Unknown)
    ensures Receive(s, d).1 == Accepted ==> Expected(Receive(s, d).0) == Expecting(Expected(s), d)
    ensures Receive(s, d).1 == More ==> Expected(Receive(s, d).0) == Expected(s)
  {
  }

  /** The number expected after a datagram. A reply that announces no datagrams fixes none. */
  function Expecting(next: Option<U16>, d: seq<Byte>): Option<U16>
    requires Fits(d)
  {
    if next == None && Total(d) == 0 then None else Some(Next(Seqid(d)))
  }

  /** A taken datagram adds its payload and nothing else if and only if the buffer was drained; any other datagram adds
      nothing. */
  lemma AddsPayloadExactly(s: Reading, d: seq<Byte>)
    requires s.Valid()
    ensures Receive(s, d).0.Valid() && (Receive(s, d).1 == Accepted ==> Fits(d))
    ensures Receive(s, d).1 == Accepted ==>
              (Receive(s, d).0.Exposed() == s.Exposed() + Payload(d) <==> s.Drained())
    ensures Receive(s, d).1 != Accepted ==> Receive(s, d).0.Exposed() == s.Exposed()
  {
    hide Receive, Number;
    var t := Receive(s, d).0;
    BufferAfter(s, d);
    if Receive(s, d).1 == Accepted {
      if s.Drained() {
        assert s.Exposed() == [] && [] + Payload(d) == Payload(d);
      } else {
        assert |t.Exposed()| == |s.Exposed()| + |Payload(d)| + HEADER;
        assert |s.Exposed() + Payload(d)| < |t.Exposed()|;
      }
    }
  }

  lemma DrainedAdds(s: Reading, d: seq<Byte>)
    requires s.Valid() && s.Drained()
    ensures Receive(s, d).0.Valid() && (Receive(s, d).1 == Accepted ==> Fits(d))
    ensures Receive(s, d).0.Exposed() == if Receive(s, d).1 == Accepted then Payload(d) else []
  {
    AddsPayloadExactly(s, d);
    hide Receive, Fits;
    assert s.Exposed() == [];
  }

  /** An undrained buffer, and a datagram of the request being read: the parser sees its last eight bytes twice. */
  lemma ShownTwice()
    ensures var (s, d) := (Reading([0, 0, 0, 0, 0, 0, 0, 0, 1], HEADER, 7, 0, 1, Connected), Frame(7, 0, 1, [5]));
            && s.Valid() && !s.Drained() && s.Exposed() == [1] && Fits(d) && Payload(d) == [5]
            && Receive(s, d).1 == Accepted && Receive(s, d).0.Valid()
            && Receive(s, d).0.Exposed() == [1, 5, 7, 0, 0, 0, 1, 0, 0, 5]
  {
    FrameFields(7, 0, 1, [5]);
    var d := Frame(7, 0, 1, [5]);
    assert d[|d| - HEADER..] == [7, 0, 0, 0, 1, 0, 0, 5];
  }

  lemma BufferAfter(s: Reading, d: seq<Byte>)
    requires s.Valid()
    ensures var (t, outcome) := Receive(s, d);
            if outcome != Accepted then (t.value, t.idx) == if s.Drained() then ([], 0) else (s.value, s.idx)
            else if s.Drained() then Fits(d) && (t.value, t.idx) == (d, HEADER)
            else Fits(d) && |t.value| == |s.value| + |d| && t.idx == s.idx
  {
    hide Number, Extended;
    if Fits(d) { ExtendedLength(s.value, s.idx, d); }
  }

  // ---------------------------------------------------------------------------------------------------------
  // Runs

  /** A parser reads n bytes, or a datagram arrives. */
  datatype Event = Taken(n: nat) | Arrived(d: seq<Byte>)

  function Datagrams(es: seq<Event>): seq<seq<Byte>> {
    if es == [] then [] else (if es[0].Arrived? then [es[0].d] else []) + Datagrams(es[1..])
  }

  function After(s: Reading, e: Event): (t: Reading)
    requires s.Valid() && (e.Taken? ==> e.n <= |s.Exposed()|)
    ensures t.Valid()
  {
    match e
    case Taken(n) => s.(idx := s.idx + n)
    case Arrived(d) => AcceptedExactly(s, d); Receive(s, d).0
  }

  /** The parser takes no more than there is, and all of it before another datagram is read. The run ends with a
      datagram at which the request leaves the stream. */
  predicate Orderly(s: Reading, es: seq<Event>)
    requires s.Valid()
    decreases |es|
  {
    es == [] ||
    (match es[0]
     case Taken(n) => n <= |s.Exposed()| && Orderly(After(s, es[0]), es[1..])
     case Arrived(d) =>
       && s.Drained() && (Receive(s, d).1 in {Accepted, More} || es[1..] == [])
       && Orderly(After(s, es[0]), es[1..]))
  }

  /** All the bytes the parser took in the run, followed by those it could still take. */
  function Delivered(s: Reading, es: seq<Event>): seq<Byte>
    requires s.Valid() && Orderly(s, es)
    decreases |es|
  {
    if es == [] then s.Exposed()
    else
      (if es[0].Taken? then s.Exposed()[..es[0].n] else []) + Delivered(After(s, es[0]), es[1..])
  }

  /** The datagrams that the reader of request `reqid` takes: up to the first one that is neither the expected one nor
      stale. */
  function Chosen(reqid: U16, next: Option<U16>, ds: seq<seq<Byte>>): (r: seq<seq<Byte>>)
    ensures forall d <- r :: Fits(d) && Reqid(d) == reqid
    decreases |ds|
  {
    if ds == [] then []
    else if Due(reqid, next, ds[0]) then [ds[0]] + Chosen(reqid, Expecting(next, ds[0]), ds[1..])
    else if Stale(reqid, ds[0]) then Chosen(reqid, next, ds[1..])
    else []
  }

  function Payloads(ds: seq<seq<Byte>>): seq<Byte>
    requires forall d <- ds :: Fits(d)
  {
    if ds == [] then [] else Payload(ds[0]) + Payloads(ds[1..])
  }

  /** In every orderly run the parser gets what was there and then the payloads of the chosen datagrams. */
  lemma {:induction false} DeliversChosen(s: Reading, es: seq<Event>)
    requires s.Valid() && Orderly(s, es)
    ensures Delivered(s, es) == s.Exposed() + Payloads(Chosen(s.reqid, Expected(s), Datagrams(es)))
    decreases |es|
  {
    hide Receive, Chosen, Payloads, Fits;
    if es == [] {
      NoneChosen(s.reqid, Expected(s));
    } else {
      var e, t := es[0], After(s, es[0]);
      DeliversChosen(t, es[1..]);
      if e.Taken? { DeliversTaken(s, es); } else { DeliversArrived(s, es); }
    }
  }

  lemma DeliversTaken(s: Reading, es: seq<Event>)
    requires s.Valid() && Orderly(s, es) && es != [] && es[0].Taken?
    requires var t := After(s, es[0]);
             Delivered(t, es[1..]) == t.Exposed() + Payloads(Chosen(t.reqid, Expected(t), Datagrams(es[1..])))
    ensures Delivered(s, es) == s.Exposed() + Payloads(Chosen(s.reqid, Expected(s), Datagrams(es)))
  {
    hide Receive, Chosen, Payloads, Fits, Datagrams;
    var t, taken := After(s, es[0]), s.Exposed()[..es[0].n];
    NextDatagrams(es);
    TakenSplits(s, es[0].n);
    assert Delivered(s, es) == taken + Delivered(t, es[1..]);
    hide Delivered, Orderly, Reading.Exposed;
    Associative(taken, t.Exposed(), Payloads(Chosen(t.reqid, Expected(t), Datagrams(es[1..]))));
  }

  lemma TakenSplits(s: Reading, n: nat)
    requires s.Valid() && n <= |s.Exposed()|
    ensures s.Exposed() == s.Exposed()[..n] + After(s, Taken(n)).Exposed()
  {
  }

  lemma DeliversArrived(s: Reading, es: seq<Event>)
    requires s.Valid() && Orderly(s, es) && es != [] && es[0].Arrived?
    requires var t := After(s, es[0]);
             Delivered(t, es[1..]) == t.Exposed() + Payloads(Chosen(t.reqid, Expected(t), Datagrams(es[1..])))
    ensures Delivered(s, es) == s.Exposed() + Payloads(Chosen(s.reqid, Expected(s), Datagrams(es)))
  {
    hide *;
    var d, rest := es[0].d, Datagrams(es[1..]);
    NextDatagrams(es);
    ArrivedDelivers(s, es);
    ChosenStep(s, d, rest);
    DrainedAdds(s, d);
    NothingBefore(Payloads(Chosen(s.reqid, Expected(s), Datagrams(es))));
  }

  lemma ArrivedDelivers(s: Reading, es: seq<Event>)
    requires s.Valid() && Orderly(s, es) && es != [] && es[0].Arrived?
    ensures s.Drained() && s.Exposed() == [] && After(s, es[0]) == Receive(s, es[0].d).0
    ensures Orderly(After(s, es[0]), es[1..]) && Delivered(s, es) == Delivered(After(s, es[0]), es[1..])
    ensures Receive(s, es[0].d).1 in {Accepted, More} || Datagrams(es[1..]) == []
  {
    hide Receive;
    NothingBefore(Delivered(After(s, es[0]), es[1..]));
  }

  lemma NothingBefore<T>(a: seq<T>)
    ensures [] + a == a
  {
  }

  lemma NextDatagrams(es: seq<Event>)
    requires es != []
    ensures Datagrams(es) == (if es[0].Arrived? then [es[0].d] + Datagrams(es[1..]) else Datagrams(es[1..]))
  {
  }

  lemma NoneChosen(reqid: U16, next: Option<U16>)
    ensures Payloads(Chosen(reqid, next, [])) == []
  {
  }

  lemma ChosenStep(s: Reading, d: seq<Byte>, rest: seq<seq<Byte>>)
    requires s.Valid() && (Receive(s, d).1 in {Accepted, More} || rest == [])
    ensures var (t, outcome) := Receive(s, d);
            Payloads(Chosen(s.reqid, Expected(s), [d] + rest))
            == (if outcome == Accepted then Payload(d) else []) + Payloads(Chosen(t.reqid, Expected(t), rest))
  {
    AcceptedExactly(s, d);
    hide Receive, Payload, Due, Stale, Expected, Expecting, Fits;
    var (t, outcome) := Receive(s, d);
    assert ([d] + rest)[1..] == rest;
    if outcome == Accepted {
      var tail := Chosen(t.reqid, Expected(t), rest);
      assert Chosen(s.reqid, Expected(s), [d] + rest) == [d] + tail;
      assert ([d] + tail)[1..] == tail;
    }
  }

  predicate Announced(reqid: U16, ds: seq<seq<Byte>>) {
    forall d <- ds :: Fits(d) && Reqid(d) == reqid ==> Total(d) != 0
  }

  lemma NextAdds(seqid: nat, i: nat)
    ensures Next(seqid % 0x1_0000) == (seqid + 1) % 0x1_0000
    ensures seqid < 0x1_0000 ==> (Next(seqid) + i) % 0x1_0000 == (seqid + i + 1) % 0x1_0000
  {
  }

  predicate Consecutive(ds: seq<seq<Byte>>, from: U16) {
    forall i | 0 <= i < |ds| :: Fits(ds[i]) && Seqid(ds[i]) == (from + i) % 0x1_0000
  }

  /** If no header announces an empty reply, the chosen datagrams have consecutive numbers, modulo 2^16, from the one
      expected, or from the first one if none was. */
  lemma {:induction false} ChosenConsecutive(reqid: U16, next: Option<U16>, ds: seq<seq<Byte>>)
    requires Announced(reqid, ds)
    ensures var r := Chosen(reqid, next, ds);
            r != [] ==> Consecutive(r, if next.Some? then next.value else Seqid(r[0]))
    decreases |ds|
  {
    if ds != [] {
      assert ds[0] in ds && forall e <- ds[1..] :: e in ds;
      var d, r := ds[0], Chosen(reqid, next, ds);
      if Due(reqid, next, d) {
        var tail := Chosen(reqid, Some(Next(Seqid(d))), ds[1..]);
        ChosenConsecutive(reqid, Some(Next(Seqid(d))), ds[1..]);
        assert r == [d] + tail;
        ConsecutiveCons(d, tail);
      } else if Stale(reqid, d) {
        ChosenConsecutive(reqid, next, ds[1..]);
      }
    }
  }

  lemma ConsecutiveCons(d: seq<Byte>, tail: seq<seq<Byte>>)
    requires Fits(d) && Consecutive(tail, Next(Seqid(d)))
    ensures Consecutive([d] + tail, Seqid(d))
  {
    hide Fits, Seqid, Next;
    var r := [d] + tail;
    forall i | 0 <= i < |r| ensures Fits(r[i]) && Seqid(r[i]) == (Seqid(d) + i) % 0x1_0000 {
      if i > 0 {
        assert r[i] == tail[i - 1];
        NextAdds(Seqid(d), i - 1);
      }
    }
  }

  // ---------------------------------------------------------------------------------------------------------
  // Whole replies

  function Bytes(n: U16): seq<Byte> { [n / 0x100, n % 0x100] }

  /** A server's datagram, the last header field being reserved. */
  function Frame(reqid: U16, seqid: U16, total: U16, payload: seq<Byte>): seq<Byte> {
    Bytes(reqid) + Bytes(seqid) + Bytes(total) + Bytes(0) + payload
  }

  lemma FrameFields(reqid: U16, seqid: U16, total: U16, payload: seq<Byte>)
    requires |payload| <= MAX_DATAGRAM - HEADER
    ensures var d := Frame(reqid, seqid, total, payload);
            Fits(d) && (Reqid(d), Seqid(d), Total(d), Payload(d)) == (reqid, seqid, total, payload)
  {
  }

  function Joined(parts: seq<seq<Byte>>): seq<Byte> { if parts == [] then [] else parts[0] + Joined(parts[1..]) }

  predicate Sized(parts: seq<seq<Byte>>) { forall part <- parts :: |part| <= MAX_DATAGRAM - HEADER }

  /** The datagrams of a reply, from number k on. */
  function Frames(reqid: U16, k: nat, total: U16, parts: seq<seq<Byte>>): (r: seq<seq<Byte>>)
    decreases |parts|
  {
    if parts == [] then []
    else [Frame(reqid, k % 0x1_0000, total, parts[0])] + Frames(reqid, k + 1, total, parts[1..])
  }

  /** The parts of a reply from number k on arrive in order, and before the last of them nothing but stale datagrams in
      between. */
  predicate Arrives(ds: seq<seq<Byte>>, reqid: U16, k: nat, total: U16, parts: seq<seq<Byte>>)
    decreases |ds|
  {
    parts == []
    || (ds != [] && Stale(reqid, ds[0]) && Arrives(ds[1..], reqid, k, total, parts))
    || (ds != [] && !Stale(reqid, ds[0]) && ds[0] == Frame(reqid, k % 0x1_0000, total, parts[0])
        && Arrives(ds[1..], reqid, k + 1, total, parts[1..]))
  }

  // ---------------------------------------------------------------------------------------------------------
  // A request's time on the stream

  /** The parser is done, the request left the stream for a retry or with its server, or it still waits. */
  datatype Ending = Done | Left | Waiting

  /** The datagrams a request takes out of those that arrive, and how that ends. `complete` is the parser, which is done
      as soon as it holds of the bytes delivered, `got` of which were delivered before. */
  function Heard(reqid: U16, next: Option<U16>, complete: seq<Byte> -> bool, got: seq<Byte>, ds: seq<seq<Byte>>)
    : (r: (seq<seq<Byte>>, Ending))
    ensures forall d <- r.0 :: Fits(d)
    decreases |ds|
  {
    if ds == [] then ([], Waiting)
    else if Due(reqid, next, ds[0]) then
      var more := got + Payload(ds[0]);
      if complete(more) then ([ds[0]], Done)
      else
        var (taken, ending) := Heard(reqid, Expecting(next, ds[0]), complete, more, ds[1..]);
        ([ds[0]] + taken, ending)
    else if Stale(reqid, ds[0]) then Heard(reqid, next, complete, got, ds[1..])
    else ([], Left)
  }

  /** They are the datagrams chosen in a run, as far as the parser went on. */
  lemma {:induction false} HeardIsChosen(reqid: U16, next: Option<U16>, complete: seq<Byte> -> bool, got: seq<Byte>,
                                         ds: seq<seq<Byte>>)
    ensures var (taken, ending) := Heard(reqid, next, complete, got, ds);
            taken <= Chosen(reqid, next, ds) && (ending != Done ==> taken == Chosen(reqid, next, ds))
    decreases |ds|
  {
    hide Expecting, Payload, Fits, Reqid, Seqid;
    if ds != [] {
      if Due(reqid, next, ds[0]) {
        HeardIsChosen(reqid, Expecting(next, ds[0]), complete, got + Payload(ds[0]), ds[1..]);
      } else if Stale(reqid, ds[0]) {
        HeardIsChosen(reqid, next, complete, got, ds[1..]);
      }
    }
  }

  /** The parser is done with the last of the parts and not before. */
  predicate Ends(complete: seq<Byte> -> bool, got: seq<Byte>, parts: seq<seq<Byte>>)
    decreases |parts|
  {
    && parts != []
    && if |parts| == 1 then complete(got + parts[0])
       else !complete(got + parts[0]) && Ends(complete, got + parts[0], parts[1..])
  }

  /** The request took `taken` so far, with the bytes `got`, and goes on with `rest` unless it ended. */
  ghost predicate Resumes(id: U16, complete: seq<Byte> -> bool, all: seq<seq<Byte>>, next: Option<U16>,
                          taken: seq<seq<Byte>>, got: seq<Byte>, rest: seq<seq<Byte>>, ending: Ending) {
    && (forall d <- taken :: Fits(d)) && got == Payloads(taken)
    && Heard(id, None, complete, [], all)
       == if ending != Waiting then (taken, ending)
          else var (more, end) := Heard(id, next, complete, got, rest); (taken + more, end)
  }

  lemma Starts(id: U16, complete: seq<Byte> -> bool, all: seq<seq<Byte>>)
    ensures Resumes(id, complete, all, None, [], [], all, Waiting)
  {
    var (more, end) := Heard(id, None, complete, [], all);
    assert [] + more == more;
  }

  lemma Stops(id: U16, complete: seq<Byte> -> bool, all: seq<seq<Byte>>, next: Option<U16>,
              taken: seq<seq<Byte>>, got: seq<Byte>, rest: seq<seq<Byte>>, ending: Ending)
    requires Resumes(id, complete, all, next, taken, got, rest, ending) && (ending == Waiting ==> rest == [])
    ensures (forall d <- taken :: Fits(d)) && got == Payloads(taken)
    ensures Heard(id, None, complete, [], all) == (taken, ending)
  {
    if ending == Waiting {
      var nothing: seq<seq<Byte>> := [];
      assert Heard(id, next, complete, got, []) == (nothing, Waiting) && taken + nothing == taken;
    }
  }

  /** One more datagram, after which the parser takes what there is. */
  lemma Continues(complete: seq<Byte> -> bool, all: seq<seq<Byte>>, s: Reading, d: seq<Byte>,
                  taken: seq<seq<Byte>>, got: seq<Byte>, rest: seq<seq<Byte>>)
    requires s.Valid() && Resumes(s.reqid, complete, all, Expected(s), taken, got, [d] + rest, Waiting)
    ensures var (t, outcome) := Receive(s, d);
            match outcome
            case Accepted =>
              Fits(d) && Resumes(s.reqid, complete, all, Expected(t), taken + [d], got + Payload(d), rest,
                                 if complete(got + Payload(d)) then Done else Waiting)
            case More => Resumes(s.reqid, complete, all, Expected(t), taken, got, rest, Waiting)
            case _ => Resumes(s.reqid, complete, all, Expected(t), taken, got, rest, Left)
  {
    AcceptedExactly(s, d);
    var (t, outcome) := Receive(s, d);
    var id, ds, next := s.reqid, [d] + rest, Expected(s);
    assert ds[0] == d && ds[1..] == rest;
    hide Receive, Fits, Due, Stale, Expected, Expecting, Payload;
    var nothing: seq<seq<Byte>> := [];
    assert taken + nothing == taken;
    if outcome == Accepted {
      PayloadsOn(taken, d);
      var more := got + Payload(d);
      if complete(more) {
        assert Heard(id, next, complete, got, ds) == ([d], Done);
      } else {
        HeardNext(id, next, complete, got, ds);
        var (tail, end) := Heard(id, Expected(t), complete, more, rest);
        Associative(taken, [d], tail);
      }
    }
  }

  lemma {:induction false} PayloadsOn(ds: seq<seq<Byte>>, d: seq<Byte>)
    requires Fits(d) && forall e <- ds :: Fits(e)
    ensures Payloads(ds + [d]) == Payloads(ds) + Payload(d)
  {
    if ds == [] {
      assert [] + [d] == [d] && [d][1..] == [];
      assert Payload(d) + [] == Payload(d) && [] + Payload(d) == Payload(d);
    } else {
      assert ds[0] in ds && forall e <- ds[1..] :: e in ds;
      PayloadsOn(ds[1..], d);
      assert (ds + [d])[0] == ds[0] && (ds + [d])[1..] == ds[1..] + [d];
      Associative(Payload(ds[0]), Payloads(ds[1..]), Payload(d));
    }
  }

  /** Exactly when a reply is delivered over UDP, whatever arrives: its datagrams are what the request takes, and its
      parser is done, if and only if each datagram up to the last part is the next part or is stale. */
  lemma {:induction false} HeardExactly(reqid: U16, next: Option<U16>, complete: seq<Byte> -> bool, got: seq<Byte>,
                                        ds: seq<seq<Byte>>, k: nat, total: U16, parts: seq<seq<Byte>>)
    requires total != 0 && Sized(parts) && Ends(complete, got, parts) && (next == None || next == Some(k % 0x1_0000))
    ensures Heard(reqid, next, complete, got, ds) == (Frames(reqid, k, total, parts), Done)
            <==> Arrives(ds, reqid, k, total, parts)
    decreases |ds|
  {
    if ds != [] {
      var frame, frames := Frame(reqid, k % 0x1_0000, total, parts[0]), Frames(reqid, k + 1, total, parts[1..]);
      FrameFields(reqid, k % 0x1_0000, total, parts[0]);
      NextAdds(k, 0);
      hide Frame, Fits, Reqid, Seqid, Total, Payload, Next;
      if Stale(reqid, ds[0]) {
        HeardExactly(reqid, next, complete, got, ds[1..], k, total, parts);
      } else if ds[0] == frame {
        var more := got + parts[0];
        assert ([frame] + frames)[1..] == frames && forall part <- parts[1..] :: part in parts;
        if |parts| == 1 {
          assert frames == [] && [frame] + frames == [frame];
        } else {
          HeardExactly(reqid, Some(Next(k % 0x1_0000)), complete, more, ds[1..], k + 1, total, parts[1..]);
          HeardNext(reqid, next, complete, got, ds);
          var (taken, ending) := Heard(reqid, Some(Next(k % 0x1_0000)), complete, more, ds[1..]);
          assert ([frame] + taken)[1..] == taken;
        }
      } else {
        HeardFirst(reqid, next, complete, got, ds);
        assert ([frame] + frames)[0] == frame;
      }
    }
  }

  lemma HeardNext(reqid: U16, next: Option<U16>, complete: seq<Byte> -> bool, got: seq<Byte>, ds: seq<seq<Byte>>)
    requires ds != [] && Due(reqid, next, ds[0]) && !complete(got + Payload(ds[0]))
    ensures var (taken, ending) := Heard(reqid, Expecting(next, ds[0]), complete, got + Payload(ds[0]), ds[1..]);
            Heard(reqid, next, complete, got, ds) == ([ds[0]] + taken, ending)
  {
  }

  lemma HeardFirst(reqid: U16, next: Option<U16>, complete: seq<Byte> -> bool, got: seq<Byte>, ds: seq<seq<Byte>>)
    requires ds != [] && !Stale(reqid, ds[0])
    ensures var (taken, ending) := Heard(reqid, next, complete, got, ds);
            if Due(reqid, next, ds[0]) then taken != [] && taken[0] == ds[0] else taken == [] && ending == Left
  {
  }

  // ---------------------------------------------------------------------------------------------------------
  // In bytes

  /** As many parts as a header can announce, none of them empty, at whose end the parser is done. */
  predicate IsReply(complete: seq<Byte> -> bool, parts: seq<seq<Byte>>) {
    |parts| < 0x1_0000 && Sized(parts) && (forall part <- parts :: part != []) && Ends(complete, [], parts)
  }

  /** Datagrams that carry the request's id come from its reply. They may be lost, doubled or out of order, and there
      may be any others. */
  ghost predicate Genuine(ds: seq<seq<Byte>>, reqid: U16, parts: seq<seq<Byte>>) {
    |parts| < 0x1_0000 && forall d <- ds :: Fits(d) && Reqid(d) == reqid ==>
      exists k: nat :: k < |parts| && d == Frame(reqid, k, |parts|, parts[k])
  }

  /** What can come out of it: the parts from some number on, up to some other. */
  lemma {:induction false} HeardSlice(reqid: U16, next: Option<U16>, complete: seq<Byte> -> bool, got: seq<Byte>,
                                      ds: seq<seq<Byte>>, parts: seq<seq<Byte>>) returns (k: nat, m: nat)
    requires Sized(parts) && Genuine(ds, reqid, parts)
    requires next.Some? ==> next.value <= |parts|
    ensures k <= m <= |parts| && (next.Some? ==> k == next.value)
    ensures Heard(reqid, next, complete, got, ds).0 == Frames(reqid, k, |parts|, parts[k..m])
    decreases |ds|
  {
    k := if next.Some? then next.value else 0;
    m := k;
    if ds != [] {
      GenuineRest(ds, reqid, parts);
      if Due(reqid, next, ds[0]) {
        k := NumberOf(reqid, ds[0], ds, parts);
        hide *;
        m := k + 1;
        var more := got + Payload(ds[0]);
        var none;
        if !complete(more) {
          HeardNext(reqid, next, complete, got, ds);
          none, m := HeardSlice(reqid, Some(k + 1), complete, more, ds[1..], parts);
        } else {
          HeardLast(reqid, next, complete, got, ds);
          NoFrames(reqid, k + 1, parts);
        }
        FramesStep(reqid, k, m, parts);
      } else if Stale(reqid, ds[0]) {
        hide Due, Stale;
        k, m := HeardSlice(reqid, next, complete, got, ds[1..], parts);
      }
    }
  }

  lemma GenuineRest(ds: seq<seq<Byte>>, reqid: U16, parts: seq<seq<Byte>>)
    requires Genuine(ds, reqid, parts) && ds != []
    ensures Genuine(ds[1..], reqid, parts) && ds[0] in ds
  {
    assert forall d <- ds[1..] :: d in ds;
    hide Frame, Fits, Reqid;
  }

  lemma NumberOf(reqid: U16, d: seq<Byte>, ds: seq<seq<Byte>>, parts: seq<seq<Byte>>) returns (k: nat)
    requires Sized(parts) && Genuine(ds, reqid, parts) && d in ds && Fits(d) && Reqid(d) == reqid
    ensures k < |parts| && d == Frame(reqid, k, |parts|, parts[k])
    ensures Seqid(d) == k && Payload(d) == parts[k] && forall next :: Expecting(next, d) == Some(k + 1)
  {
    k :| k < |parts| && d == Frame(reqid, k, |parts|, parts[k]);
    FrameFields(reqid, k, |parts|, parts[k]);
  }

  lemma HeardLast(reqid: U16, next: Option<U16>, complete: seq<Byte> -> bool, got: seq<Byte>, ds: seq<seq<Byte>>)
    requires ds != [] && Due(reqid, next, ds[0]) && complete(got + Payload(ds[0]))
    ensures Heard(reqid, next, complete, got, ds) == ([ds[0]], Done)
  {
  }

  lemma NoFrames(reqid: U16, k: nat, parts: seq<seq<Byte>>)
    requires k <= |parts| < 0x1_0000
    ensures Frames(reqid, k, |parts|, parts[k..k]) == []
  {
  }

  lemma FramesStep(reqid: U16, k: nat, m: nat, parts: seq<seq<Byte>>)
    requires k < m <= |parts| < 0x1_0000
    ensures Frames(reqid, k, |parts|, parts[k..m])
            == [Frame(reqid, k, |parts|, parts[k])] + Frames(reqid, k + 1, |parts|, parts[k + 1..m])
  {
    hide Frame;
    assert parts[k..m][1..] == parts[k + 1..m];
  }

  lemma {:induction false} FramesJoined(reqid: U16, k: nat, total: U16, parts: seq<seq<Byte>>)
    requires Sized(parts)
    ensures forall d <- Frames(reqid, k, total, parts) :: Fits(d)
    ensures Payloads(Frames(reqid, k, total, parts)) == Joined(parts)
    decreases |parts|
  {
    if parts != [] {
      assert parts[0] in parts && forall part <- parts[1..] :: part in parts;
      var frame, frames := Frame(reqid, k % 0x1_0000, total, parts[0]), Frames(reqid, k + 1, total, parts[1..]);
      FrameFields(reqid, k % 0x1_0000, total, parts[0]);
      FramesJoined(reqid, k + 1, total, parts[1..]);
      hide Frame, Fits, Payload;
      assert ([frame] + frames)[0] == frame && ([frame] + frames)[1..] == frames;
    }
  }

  lemma {:induction false} JoinedConcat(a: seq<seq<Byte>>, b: seq<seq<Byte>>)
    ensures Joined(a + b) == Joined(a) + Joined(b)
    decreases |a|
  {
    if a == [] {
      assert a + b == b;
    } else {
      JoinedConcat(a[1..], b);
      assert (a + b)[0] == a[0] && (a + b)[1..] == a[1..] + b;
      Associative(a[0], Joined(a[1..]), Joined(b));
    }
  }

  lemma InThree<T>(s: seq<T>, k: nat, m: nat)
    requires k <= m <= |s|
    ensures s == s[..k] + (s[k..m] + s[m..])
    ensures (forall x <- s[..k] :: x in s) && forall x <- s[m..] :: x in s
  {
  }

  /** No stretch of the parts but the whole has all the bytes. */
  lemma WholeOnly(parts: seq<seq<Byte>>, k: nat, m: nat)
    requires k <= m <= |parts| && Joined(parts[k..m]) == Joined(parts) && forall part <- parts :: part != []
    ensures k == 0 && m == |parts|
  {
    var (a, b, c) := (parts[..k], parts[k..m], parts[m..]);
    InThree(parts, k, m);
    SomethingJoined(a);
    SomethingJoined(c);
    hide *;
    JoinedConcat(a, b + c);
    JoinedConcat(b, c);
    assert |Joined(parts)| == |Joined(a)| + |Joined(b)| + |Joined(c)|;
  }

  lemma SomethingJoined(parts: seq<seq<Byte>>)
    requires forall part <- parts :: part != []
    ensures parts != [] ==> |Joined(parts)| > 0
  {
    if parts != [] { assert parts[0] in parts; }
  }

  /** A reply is delivered whole, byte for byte, if and only if each datagram up to its last part is the next part or is
      stale. */
  lemma DeliveredExactly(reqid: U16, complete: seq<Byte> -> bool, ds: seq<seq<Byte>>, parts: seq<seq<Byte>>)
    requires IsReply(complete, parts) && Genuine(ds, reqid, parts)
    ensures var (taken, ending) := Heard(reqid, None, complete, [], ds);
            ending == Done && Payloads(taken) == Joined(parts) <==> Arrives(ds, reqid, 0, |parts|, parts)
  {
    hide Heard, Arrives, Frames, Payloads, Joined, Ends, Genuine;
    var (taken, ending) := Heard(reqid, None, complete, [], ds);
    assert parts != [] by { NotEmpty(complete, parts); }
    HeardExactly(reqid, None, complete, [], ds, 0, |parts|, parts);
    FramesJoined(reqid, 0, |parts|, parts);
    if Payloads(taken) == Joined(parts) {
      var k, m := HeardSlice(reqid, None, complete, [], ds, parts);
      FramesJoined(reqid, k, |parts|, parts[k..m]);
      WholeOnly(parts, k, m);
      assert parts[0..|parts|] == parts;
    }
  }

  lemma NotEmpty(complete: seq<Byte> -> bool, parts: seq<seq<Byte>>)
    requires Ends(complete, [], parts)
    ensures parts != []
  {
  }

  // ---------------------------------------------------------------------------------------------------------
  // Arrivals that end it

  /** Request 7 and a reply in one datagram that arrives second: behind a datagram of a later request, or behind one
      that is too short, it is not read. */
  lemma StraysEndIt(complete: seq<Byte> -> bool, payload: seq<Byte>)
    requires |payload| <= MAX_DATAGRAM - HEADER
    ensures Heard(7, None, complete, [], [Frame(8, 0, 1, [5]), Frame(7, 0, 1, payload)]) == ([], Left)
    ensures Heard(7, None, complete, [], [[1, 2, 3], Frame(7, 0, 1, payload)]) == ([], Left)
  {
    FrameFields(8, 0, 1, [5]);
    hide Frame;
  }

  /** A first part that is lost goes unnoticed: the second one is taken for the start of the reply. */
  lemma FirstLost(complete: seq<Byte> -> bool)
    ensures Heard(7, None, complete, [], [Frame(7, 1, 2, [5])]).0 == [Frame(7, 1, 2, [5])]
  {
    FrameFields(7, 1, 2, [5]);
    hide Frame;
    var d, none: seq<seq<Byte>> := Frame(7, 1, 2, [5]), [];
    assert [d][1..] == none && [d] + none == [d];
  }
}
