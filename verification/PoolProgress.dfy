/** What a server's turn to read does, told from what its parsers return, and that a run in which nothing fails ends
    with every request answered. */
module PoolProgress {
  import opened Basics
  import opened Sequences
  import opened Routing
  import opened PoolModel
  import opened PoolInvariant
  import opened PoolRound
  import opened PoolTurns
  import opened PoolLanding
  import opened PoolReconnect
  import opened PoolRuns
  import opened PoolBytes
  import opened PoolWaiting

  // ---------------------------------------------------------------------------------------------------------
  // A turn to read

  function Replies(outs: seq<ParseOutcome>): nat {
    if outs == [] then 0 else (if outs[0].Reply? then 1 else 0) + Replies(outs[1..])
  }

  /** The log of requests that each get their own reply. */
  function Own(ids: seq<RequestId>): seq<(RequestId, RequestId)> {
    seq(|ids|, i requires 0 <= i < |ids| => (ids[i], ids[i]))
  }

  /** The first k requests of the server's read line were answered, and nothing else moved. */
  ghost predicate Answers(p: Pool, p': Pool, s: ServerId, k: nat) {
    && s < |p.servers| == |p'.servers| && p'.servers == p.servers[s := p'.servers[s]]
    && var line := ReadLine(p.servers[s]);
       && k <= |line| && ReadLine(p'.servers[s]) == line[k..] && (k == 0 ==> p'.servers[s] == p.servers[s])
       && (p'.servers[s].status.Failed? <==> p.servers[s].status.Failed?)
       && p'.free == p.free + line[..k] && p'.log == p.log + Own(line[..k]) && |p'.requests| == |p.requests|
       && forall x :: 0 <= x < |p.requests| ==>
            p'.requests[x].sendbuf == p.requests[x].sendbuf && p'.requests[x].idx == p.requests[x].idx
  }

  /** With this outcome a parser brings its server down. */
  predicate Fatal(outs: seq<ParseOutcome>, j: nat) {
    j < |outs| && (outs[j].Malformed? || outs[j] == More(true))
  }

  /** With this outcome it waits for more: the socket has no more to give, or no reply is due. */
  predicate Waits(v: Server, outs: seq<ParseOutcome>, j: nat) {
    j >= |outs| || outs[j] == More(false) || (outs[j].Reply? && v.wire == [])
  }

  /** The turn went through j outcomes, each of them a reply or a call that wants another. Then every request was
      answered; or the parser waits and the server is listed again; or the server is down, because of what the parser
      returned or because it refused to be connected after an early reply. */
  ghost predicate ReadTold(up: set<ServerId>, p: Pool, p': Pool, s: ServerId, outs: seq<ParseOutcome>, j: nat)
    requires s < |p.servers|
  {
    && j <= |outs| && (forall i :: 0 <= i < j ==> outs[i].Again? || outs[i].Reply?) && s < |p'.servers|
    && var (k, v') := (Replies(outs[..j]), p'.servers[s]);
       || (Answers(p, p', s, k) && k == |ReadLine(p.servers[s])|)
       || (Answers(p, p', s, k) && v'.readreq.Some? && Waits(v', outs, j) && s in p'.reading)
       || (IsDown(p', s) && (Fatal(outs, j) || (s !in up && j > 0 && outs[j - 1].Reply?)))
  }

  lemma {:induction false} ReadTurnExact(g: Config, up: set<ServerId>, p: Pool, s: ServerId, outs: seq<ParseOutcome>,
                                         toRead: set<ServerId>) returns (j: nat)
    requires s < |p.servers| && s !in toRead
    requires PoolOk(g, p, {}, if p.servers[s].readreq.Some? then toRead + {s} else toRead)
    requires TurnKept(g, up, p, s, outs)
    ensures ReadTold(up, p, ReadTurn(g, up, p, s, outs), s, outs, j)
    decreases |outs|, 1
  {
    var v := p.servers[s];
    TurnUnfolds(g, up, p, s, outs, if v.readreq.Some? then toRead + {s} else toRead);
    j := 0;
    if v.readreq.None? {
      EmptyTold(g, up, p, s, outs, toRead);
    } else if Waits(v, outs, 0) {
      hide *;
      WaitTold(up, p, s, outs);
    } else if Fatal(outs, 0) {
      hide *;
      FatalTold(g, up, p, s, outs, toRead);
    } else if outs[0].Again? {
      hide *;
      var m := ReadTurnExact(g, up, p, s, outs[1..], toRead);
      AgainTold(up, p, ReadTurn(g, up, p, s, outs[1..]), s, outs, m);
      j := m + 1;
    } else {
      assert Reading(g, p, s, toRead);
      hide *;
      j := ReplyTurn(g, up, p, s, outs, toRead);
    }
  }

  /** The first step of a turn, case by case. */
  lemma TurnUnfolds(g: Config, up: set<ServerId>, p: Pool, s: ServerId, outs: seq<ParseOutcome>, toRead: set<ServerId>)
    requires PoolOk(g, p, {}, toRead) && s < |p.servers| && TurnKept(g, up, p, s, outs)
    ensures var v := p.servers[s];
            v.readreq.Some? ==>
              if Waits(v, outs, 0) then ReadTurn(g, up, p, s, outs) == StayReading(p, s)
              else if Fatal(outs, 0) then ReadTurn(g, up, p, s, outs) == Deactivate(g, up, p, s)
              else if outs[0].Again? then
                TurnKept(g, up, p, s, outs[1..]) && ReadTurn(g, up, p, s, outs) == ReadTurn(g, up, p, s, outs[1..])
              else
                && outs[0].Reply? && v.wire != [] && CompletesWell(g, up, p, s)
                && s < |ReadDone(g, up, p, s).0.servers| && TurnKept(g, up, ReadDone(g, up, p, s).0, s, outs[1..])
                && ReadTurn(g, up, p, s, outs) == ReadTurn(g, up, ReadDone(g, up, p, s).0, s, outs[1..])
  {
    if p.servers[s].readreq.Some? { FailureIsHard(g, p, s, {}, toRead); }
    assert Shaped(g, p);
    hide PoolOk, ReadDone, Deactivate, CompletesWell, SelectRetry;
  }

  lemma ReplyTurn(g: Config, up: set<ServerId>, p: Pool, s: ServerId, outs: seq<ParseOutcome>, toRead: set<ServerId>)
      returns (j: nat)
    requires Reading(g, p, s, toRead) && outs != [] && outs[0].Reply? && CompletesWell(g, up, p, s) && Shaped(g, p)
    requires s < |ReadDone(g, up, p, s).0.servers| && TurnKept(g, up, ReadDone(g, up, p, s).0, s, outs[1..])
    requires ReadTurn(g, up, p, s, outs) == ReadTurn(g, up, ReadDone(g, up, p, s).0, s, outs[1..])
    ensures ReadTold(up, p, ReadTurn(g, up, p, s, outs), s, outs, j)
    decreases |outs|, 0
  {
    hide *;
    CompletesPool(g, up, p, s, toRead);
    var p1 := ReadDone(g, up, p, s).0;
    if LostReconnect(up, p, s) {
      LostTold(g, up, p, s, outs, toRead);
      j := 1;
    } else {
      var m := ReadTurnExact(g, up, p1, s, outs[1..], toRead);
      DoneAnswers(g, up, p, s, toRead);
      ReplyTold(up, p, p1, ReadTurn(g, up, p1, s, outs[1..]), s, outs, m);
      j := m + 1;
    }
  }

  lemma CompletesPool(g: Config, up: set<ServerId>, p: Pool, s: ServerId, toRead: set<ServerId>)
    requires Reading(g, p, s, toRead) && CompletesWell(g, up, p, s)
    ensures s !in toRead && Shaped(g, p) && s < |p.servers| && p.servers[s].readreq.Some? && p.servers[s].wire != []
    ensures var p1 := ReadDone(g, up, p, s).0;
            s < |p1.servers| && PoolOk(g, p1, {}, if p1.servers[s].readreq.Some? then toRead + {s} else toRead)
  {
    CompletesOk(g, up, p, s, toRead);
    assert Shaped(g, p);
    hide PoolOk, ReadDone, CompletesWell, Accounted;
  }

  lemma EmptyTold(g: Config, up: set<ServerId>, p: Pool, s: ServerId, outs: seq<ParseOutcome>, toRead: set<ServerId>)
    requires PoolOk(g, p, {}, toRead) && s < |p.servers| && p.servers[s].readreq.None?
    ensures ReadTold(up, p, ReadTurn(g, up, p, s, outs), s, outs, 0)
  {
    assert ServerOk(p.requests, s, p.servers[s]);
    assert ReadLine(p.servers[s]) == [] && outs[..0] == [] && p.servers[s := p.servers[s]] == p.servers;
    assert p.free + [] == p.free && p.log + [] == p.log;
    hide PoolOk, ServerOk;
  }

  lemma WaitTold(up: set<ServerId>, p: Pool, s: ServerId, outs: seq<ParseOutcome>)
    requires s < |p.servers| && p.servers[s].readreq.Some? && Waits(p.servers[s], outs, 0)
    ensures ReadTold(up, p, StayReading(p, s), s, outs, 0)
  {
    var line := ReadLine(p.servers[s]);
    assert outs[..0] == [] && p.servers[s := p.servers[s]] == p.servers && line[0..] == line && line[..0] == [];
    assert p.free + [] == p.free && p.log + [] == p.log;
  }

  lemma DownTold(up: set<ServerId>, p: Pool, p': Pool, s: ServerId, outs: seq<ParseOutcome>, j: nat)
    requires s < |p.servers| && IsDown(p', s) && j <= |outs|
    requires forall i :: 0 <= i < j ==> outs[i].Again? || outs[i].Reply?
    requires Fatal(outs, j) || (s !in up && j > 0 && outs[j - 1].Reply?)
    ensures ReadTold(up, p, p', s, outs, j)
  {
    hide Answers, Fatal, Waits, ReadLine;
  }

  lemma FatalTold(g: Config, up: set<ServerId>, p: Pool, s: ServerId, outs: seq<ParseOutcome>, toRead: set<ServerId>)
    requires Shaped(g, p) && s < |p.servers| && Fatal(outs, 0)
    ensures ReadTold(up, p, Deactivate(g, up, p, s), s, outs, 0)
  {
    hide *;
    DownAfterDeactivate(g, up, p, s, s);
    DownTold(up, p, Deactivate(g, up, p, s), s, outs, 0);
  }

  lemma AgainTold(up: set<ServerId>, p: Pool, p': Pool, s: ServerId, outs: seq<ParseOutcome>, m: nat)
    requires s < |p.servers| && outs != [] && outs[0].Again? && ReadTold(up, p, p', s, outs[1..], m)
    ensures ReadTold(up, p, p', s, outs, m + 1)
  {
    RepliesOn(outs, m);
    hide Answers, IsDown, ReadLine;
  }

  lemma RepliesOn(outs: seq<ParseOutcome>, m: nat)
    requires outs != [] && m < |outs|
    ensures Replies(outs[..m + 1]) == (if outs[0].Reply? then 1 else 0) + Replies(outs[1..][..m])
  {
    assert outs[..m + 1][1..] == outs[1..][..m];
  }

  lemma DoneAnswers(g: Config, up: set<ServerId>, p: Pool, s: ServerId, toRead: set<ServerId>)
    requires Reading(g, p, s, toRead) && !LostReconnect(up, p, s)
    ensures Answers(p, ReadDone(g, up, p, s).0, s, 1)
  {
    ReadDoneOk(g, up, p, s, toRead);
    ReadingServer(g, p, s, toRead);
    NotFailed(g, up, p, s, toRead);
    assert Exclusive(p) && On(p, s, ReadLine(p.servers[s])[0]);
    hide PoolOk, Reading, ReadDone, Accounted, NewLive, ServerOk, LostReconnect, ReadLine;
    CompletedAnswers(p, ReadDone(g, up, p, s).0, s);
  }

  lemma CompletedAnswers(p: Pool, p': Pool, s: ServerId)
    requires s < |p.servers| && ReadLine(p.servers[s]) != [] && Completed(p, p', s, ReadLine(p.servers[s])[0])
    requires Exclusive(p) && On(p, s, ReadLine(p.servers[s])[0])
    requires p'.servers[s].status.Failed? <==> p.servers[s].status.Failed?
    ensures Answers(p, p', s, 1)
  {
    var line := ReadLine(p.servers[s]);
    assert line[0] !in p.free && line[..1] == [line[0]];
    hide ReadLine, Exclusive, On;
  }

  lemma NotFailed(g: Config, up: set<ServerId>, p: Pool, s: ServerId, toRead: set<ServerId>)
    requires Reading(g, p, s, toRead) && !LostReconnect(up, p, s)
    ensures !ReadDone(g, up, p, s).0.servers[s].status.Failed?
  {
    ReadingServer(g, p, s, toRead);
    if p.servers[s].sendreq == p.servers[s].readreq {
      DroppedFields(g, up, p, s);
    } else {
      AnsweredShape(g, up, p, s, toRead);
    }
  }

  lemma ReplyTold(up: set<ServerId>, p: Pool, p1: Pool, p': Pool, s: ServerId, outs: seq<ParseOutcome>, m: nat)
    requires Answers(p, p1, s, 1) && outs != [] && outs[0].Reply? && s < |p1.servers|
             && ReadTold(up, p1, p', s, outs[1..], m)
    ensures ReadTold(up, p, p', s, outs, m + 1)
  {
    RepliesOn(outs, m);
    var k := Replies(outs[1..][..m]);
    if Answers(p1, p', s, k) { AnswersOn(p, p1, p', s, k); }
    assert |ReadLine(p1.servers[s])| == |ReadLine(p.servers[s])| - 1;
    hide Answers, IsDown, ReadLine;
  }

  lemma AnswersOn(p: Pool, p1: Pool, p2: Pool, s: ServerId, k: nat)
    requires Answers(p, p1, s, 1) && Answers(p1, p2, s, k)
    ensures Answers(p, p2, s, k + 1)
  {
    var line := ReadLine(p.servers[s]);
    assert line[1..][k..] == line[k + 1..] && line[..k + 1] == line[..1] + line[1..][..k];
    assert Own(line[..k + 1]) == Own(line[..1]) + Own(line[1..][..k]);
    assert p2.servers == p.servers[s := p2.servers[s]];
    hide ReadLine;
    Associative(p.free, line[..1], line[1..][..k]);
    Associative(p.log, Own(line[..1]), Own(line[1..][..k]));
  }

  lemma LostTold(g: Config, up: set<ServerId>, p: Pool, s: ServerId, outs: seq<ParseOutcome>, toRead: set<ServerId>)
    requires Reading(g, p, s, toRead) && LostReconnect(up, p, s)
    requires outs != [] && outs[0].Reply?
    ensures ReadTold(up, p, ReadTurn(g, up, p, s, outs), s, outs, 1)
  {
    hide *;
    LostIsDown(g, up, p, s, toRead);
    DoneTurn(g, up, p, s, outs);
    DownTold(up, p, ReadDone(g, up, p, s).0, s, outs, 1);
  }

  lemma LostIsDown(g: Config, up: set<ServerId>, p: Pool, s: ServerId, toRead: set<ServerId>)
    requires Reading(g, p, s, toRead) && LostReconnect(up, p, s)
    ensures Shaped(g, p) && s < |p.servers| && p.servers[s].readreq.Some? && p.servers[s].wire != [] && s !in up
    ensures var p1 := ReadDone(g, up, p, s).0;
            IsDown(p1, s) && s < |p1.servers| && p1.servers[s].readreq.None?
  {
    assert Complete(g, p, s, p.servers[s].readreq.value, {}, toRead + {s}) && Shaped(g, p);
    hide PoolOk, Reading, ReadDone, StagesOf, Shaped, Complete;
    LostIs(g, up, p, s, p.servers[s].readreq.value, {}, toRead + {s});
  }

  lemma DoneTurn(g: Config, up: set<ServerId>, p: Pool, s: ServerId, outs: seq<ParseOutcome>)
    requires Shaped(g, p) && s < |p.servers| && p.servers[s].readreq.Some? && p.servers[s].wire != []
    requires outs != [] && outs[0].Reply? && s < |ReadDone(g, up, p, s).0.servers|
    requires ReadDone(g, up, p, s).0.servers[s].readreq.None?
    ensures ReadTurn(g, up, p, s, outs) == ReadDone(g, up, p, s).0
  {
    hide Shaped, ReadDone;
  }

  // ---------------------------------------------------------------------------------------------------------
  // Rounds in which nothing fails

  /** Nothing is undone: no byte is sent again, no request leaves the free list, each that enters it was answered, and
      no server goes down or comes back. */
  ghost predicate Forward(p: Pool, p': Pool) {
    && |p'.servers| == |p.servers| && |p'.requests| == |p.requests| && p.log <= p'.log
    && (forall x :: 0 <= x < |p.requests| ==>
          p'.requests[x].sendbuf == p.requests[x].sendbuf && p.requests[x].idx <= p'.requests[x].idx)
    && (forall x :: x in p.free ==> x in p'.free)
    && (forall x :: x in p'.free ==> x in p.free || Answered(p, p', x))
    && (forall t :: 0 <= t < |p.servers| ==> (p'.servers[t].status.Failed? <==> p.servers[t].status.Failed?))
  }

  /** What is still to be done for a request: its bytes and its reply. */
  function Weight(p: Pool, x: RequestId): nat
    requires x < |p.requests|
  {
    if x in p.free then 0 else 1 + Left(p.requests[x])
  }

  ghost predicate Moves(p: Pool, p': Pool) {
    |p'.requests| == |p.requests| && exists x :: 0 <= x < |p.requests| && Weight(p', x) < Weight(p, x)
  }

  /** What is still to be done for the first n requests. */
  function Work(p: Pool, n: nat): nat
    requires n <= |p.requests|
  {
    if n == 0 then 0 else Work(p, n - 1) + Weight(p, n - 1)
  }

  lemma {:induction false} WorkLess(p: Pool, p': Pool, n: nat)
    requires Forward(p, p') && n <= |p.requests|
    ensures Work(p', n) <= Work(p, n)
    ensures (exists x :: 0 <= x < n && Weight(p', x) < Weight(p, x)) ==> Work(p', n) < Work(p, n)
  {
    if n > 0 { WorkLess(p, p', n - 1); }
  }

  lemma ForwardRefl(p: Pool)
    ensures Forward(p, p)
  {
  }

  lemma ForwardTrans(p: Pool, p1: Pool, p2: Pool)
    requires Forward(p, p1) && Forward(p1, p2)
    ensures Forward(p, p2)
    ensures Moves(p, p1) || Moves(p1, p2) ==> Moves(p, p2)
  {
    forall x | x in p2.free ensures x in p.free || Answered(p, p2, x) {
      if x in p1.free && x !in p.free {
        var k :| |p.log| <= k < |p1.log| && p1.log[k] == (x, x);
        assert p2.log[k] == (x, x);
      } else if x !in p1.free {
        var k :| |p1.log| <= k < |p2.log| && p2.log[k] == (x, x);
        assert |p.log| <= k;
      }
    }
    assert forall x :: 0 <= x < |p.requests| ==> Weight(p2, x) <= Weight(p1, x) <= Weight(p, x);
    hide Answered;
    if Moves(p, p1) {
      var x :| 0 <= x < |p.requests| && Weight(p1, x) < Weight(p, x);
      assert Weight(p2, x) < Weight(p, x);
    } else if Moves(p1, p2) {
      var x :| 0 <= x < |p1.requests| && Weight(p2, x) < Weight(p1, x);
      assert Weight(p2, x) < Weight(p, x);
    }
  }

  predicate GoodSends(outs: seq<SendOutcome>) {
    outs != [] && outs[0].Wrote? && outs[0].n > 0 && forall i :: 0 <= i < |outs| ==> !outs[i].Broken?
  }

  predicate GoodParses(outs: seq<ParseOutcome>) {
    outs != [] && outs[0].Reply? && forall i :: 0 <= i < |outs| ==> !Fatal(outs, i)
  }

  /** Every server would accept another connection, and on each socket that is ready the first send() takes something,
      and the first parser finds a reply if one is due. */
  ghost predicate GoodRound(g: Config, e: Round, p: Pool) {
    && !e.nothingReady && (forall s :: 0 <= s < g.numServers ==> s in e.up)
    && (forall s :: s in p.sending && s in e.writable ==> GoodSends(Script(e.sends, s)))
    && (forall s :: s in p.reading && s in e.readable ==> GoodParses(Script(e.parses, s)))
  }

  /** More of the request is sent. */
  ghost predicate Advanced(p: Pool, p': Pool, x: RequestId) {
    x < |p.requests| == |p'.requests| && x !in p.free && p.requests[x].idx < p'.requests[x].idx
    && p.requests[x].idx < |p.requests[x].sendbuf|
  }

  predicate KeepsReading(v: Server, v': Server) {
    v'.readreq == v.readreq && v'.readqueue == v.readqueue && v.wire <= v'.wire
  }

  ghost predicate Only(p: Pool, p': Pool, s: ServerId) {
    s < |p.servers| == |p'.servers| && p'.servers == p.servers[s := p'.servers[s]]
  }

  lemma SendTurnGood(g: Config, up: set<ServerId>, p: Pool, reading: seq<ServerId>, s: ServerId,
                     outs: seq<SendOutcome>, toSend: set<ServerId>)
    requires s < |p.servers| && s !in toSend && p.servers[s].sendreq.Some? && GoodSends(outs)
    requires PoolOk(g, p, toSend + {s}, Set(reading))
    ensures var (p', left) := SendTurn(g, up, p, reading, s, outs);
            left == reading && Forward(p, p') && Only(p, p', s) && Advanced(p, p', p.servers[s].sendreq.value)
            && KeepsReading(p.servers[s], p'.servers[s])
  {
    var k := SendTurnExact(g, up, p, reading, s, outs, toSend);
    var (p', line) := (SendTurn(g, up, p, reading, s, outs).0, SendLine(p.servers[s]));
    LineKnown(g, p, s, toSend + {s}, Set(reading));
    SlotOn(g, p, s, line[0], toSend + {s}, Set(reading));
    assert Exclusive(p) && On(p, s, line[0]);
    hide PoolOk, SendTurn, SendLine, Exclusive, NoDuplicates;
    SentMoves(p, p', s, line, k, if k < |line| then Rest(outs, k) else 0);
  }

  lemma SentMoves(p: Pool, p': Pool, s: ServerId, line: seq<RequestId>, k: nat, n: nat)
    requires TurnSent(p, p', s, k, n) && line == SendLine(p.servers[s]) != [] && line[0] < |p.requests|
    requires k > 0 || n > 0
    requires p.requests[line[0]].idx < |p.requests[line[0]].sendbuf| && line[0] !in p.free
    requires forall i :: 0 <= i < |line| ==>
               line[i] < |p.requests| && p.requests[line[i]].idx <= |p.requests[line[i]].sendbuf|
    ensures Forward(p, p') && Only(p, p', s) && Advanced(p, p', line[0]) && KeepsReading(p.servers[s], p'.servers[s])
  {
    forall x | 0 <= x < |p.requests|
      ensures p'.requests[x].sendbuf == p.requests[x].sendbuf && p.requests[x].idx <= p'.requests[x].idx
    {
      if x in line { var i :| 0 <= i < |line| && line[i] == x; }
    }
    hide SendLine;
  }

  lemma AdvancedMoves(p: Pool, p': Pool, x: RequestId)
    requires Forward(p, p') && Advanced(p, p', x)
    ensures Moves(p, p')
  {
    assert Weight(p', x) < Weight(p, x);
  }

  lemma AdvancedOn(p: Pool, p1: Pool, p2: Pool)
    requires Forward(p, p1) && Forward(p1, p2)
    ensures forall x :: (Advanced(p, p1, x) || Advanced(p1, p2, x)) ==> Advanced(p, p2, x)
  {
  }

  lemma ReadTurnGood(g: Config, up: set<ServerId>, p: Pool, s: ServerId, outs: seq<ParseOutcome>, toRead: set<ServerId>)
    requires s < |p.servers| && s !in toRead && s in up && GoodParses(outs) && p.servers[s].readreq.Some?
    requires PoolOk(g, p, {}, toRead + {s}) && TurnKept(g, up, p, s, outs)
    ensures var p' := ReadTurn(g, up, p, s, outs);
            Forward(p, p') && Only(p, p', s) && (p.servers[s].wire != [] ==> p.servers[s].readreq.value in p'.free)
  {
    var j := ReadTurnExact(g, up, p, s, outs, toRead);
    var (p', line) := (ReadTurn(g, up, p, s, outs), ReadLine(p.servers[s]));
    ReadLineKnown(g, p, s, {}, toRead + {s});
    assert j > 0 ==> Replies(outs[..j]) > 0;
    assert outs[..0] == [];
    hide PoolOk, ReadTurn, TurnKept, IsDown, ReadLine;
    assert Answers(p, p', s, Replies(outs[..j]));
    AnswersMove(p, p', s, line, Replies(outs[..j]));
  }

  lemma ReadLineKnown(g: Config, p: Pool, s: ServerId, toSend: set<ServerId>, toRead: set<ServerId>)
    requires PoolOk(g, p, toSend, toRead) && s < |p.servers|
    ensures var line := ReadLine(p.servers[s]);
            && (p.servers[s].readreq.Some? ==> line != [] && line[0] == p.servers[s].readreq.value)
            && forall i :: 0 <= i < |line| ==> line[i] < |p.requests| && line[i] !in p.free
  {
    var line := ReadLine(p.servers[s]);
    assert ServerOk(p.requests, s, p.servers[s]);
    forall i | 0 <= i < |line| ensures line[i] < |p.requests| && line[i] !in p.free {
      assert line[i] in line && On(p, s, line[i]);
    }
  }

  lemma AnswersMove(p: Pool, p': Pool, s: ServerId, line: seq<RequestId>, k: nat)
    requires Answers(p, p', s, k) && line == ReadLine(p.servers[s])
    requires forall i :: 0 <= i < |line| ==> line[i] < |p.requests| && line[i] !in p.free
    ensures Forward(p, p') && Only(p, p', s) && (k > 0 ==> line[0] in p'.free)
  {
    forall x | x in p'.free ensures x in p.free || Answered(p, p', x) {
      if x in line[..k] {
        var i :| 0 <= i < k && line[i] == x;
        assert p'.log[|p.log| + i] == (x, x);
      }
    }
    hide Answered, ReadLine;
    assert k > 0 ==> line[0] in line[..k];
  }

  /** A reply is due: the stream carries a request that was not answered yet. */
  predicate Due(v: Server) { v.readreq.Some? && v.wire != [] }

  /** Each ready server in the list sent something of the request in its slot; the others did not move. */
  ghost predicate AllAdvanced(p: Pool, p': Pool, list: seq<ServerId>, ready: set<ServerId>) {
    && |p'.servers| == |p.servers|
    && (forall t :: t in list && t in ready && t < |p.servers| && p.servers[t].sendreq.Some? ==>
          Advanced(p, p', p.servers[t].sendreq.value))
    && (forall t :: 0 <= t < |p.servers| ==>
          KeepsReading(p.servers[t], p'.servers[t])
          && (t !in list || t !in ready ==> p'.servers[t] == p.servers[t]))
  }

  lemma AllAdvancedOn(p: Pool, p1: Pool, p2: Pool, s: ServerId, rest: seq<ServerId>, ready: set<ServerId>)
    requires Forward(p, p1) && Forward(p1, p2) && Only(p, p1, s) && s !in rest && AllAdvanced(p1, p2, rest, ready)
    requires if s in ready then p.servers[s].sendreq.Some? ==> Advanced(p, p1, p.servers[s].sendreq.value)
             else p1.servers == p.servers
    requires KeepsReading(p.servers[s], p1.servers[s])
    ensures AllAdvanced(p, p2, [s] + rest, ready)
  {
    AdvancedOn(p, p1, p2);
    hide Forward, Advanced;
    assert forall t :: t in [s] + rest <==> t == s || t in rest;
  }

  /** What the phase over the list does first leads to p1, in which the first server sent something if it has a
      request. */
  ghost predicate SentFirst(g: Config, e: Round, p: Pool, p1: Pool, list: seq<ServerId>, reading: seq<ServerId>)
    requires list != [] && Shaped(g, p) && IdsOk(|p.servers|, list)
  {
    && Shaped(g, p1) && IdsOk(|p1.servers|, list[1..]) && PoolOk(g, p1, Set(list[1..]), Set(reading))
    && SendPhase(g, e, p, list, reading) == SendPhase(g, e, p1, list[1..], reading)
    && Forward(p, p1) && Only(p, p1, list[0]) && KeepsReading(p.servers[list[0]], p1.servers[list[0]])
    && if list[0] in e.writable
       then p.servers[list[0]].sendreq.Some? ==> Advanced(p, p1, p.servers[list[0]].sendreq.value)
       else p1.servers == p.servers
  }

  lemma HeadKnown(n: nat, list: seq<ServerId>)
    requires NoDuplicates(list) && IdsOk(n, list) && list != []
    ensures list[0] < n && list[0] !in list[1..] && list[0] in list && [list[0]] + list[1..] == list
    ensures NoDuplicates(list[1..]) && IdsOk(n, list[1..]) && forall x :: x in list[1..] ==> x in list
    ensures Set(list) == Set(list[1..]) + {list[0]} && list[0] !in Set(list[1..])
    ensures Set(list) - {list[0]} == Set(list[1..])
  {
    SetTail(list);
    assert [list[0]] + list[1..] == list;
    assert list[0] in list && forall x :: x in list[1..] ==> x in list;
    assert list[0] !in list[1..];
  }

  lemma SendNothing(g: Config, e: Round, p: Pool, list: seq<ServerId>, reading: seq<ServerId>)
    requires NoDuplicates(list) && IdsOk(|p.servers|, list) && list != [] && Shaped(g, p)
    requires list[0] < |p.servers| && p.servers[list[0]].sendreq.None? && PoolOk(g, p, Set(list), Set(reading))
    ensures SentFirst(g, e, p, p, list, reading)
  {
    hide PoolOk, Shaped, Forward, Set, NoDuplicates, IdsOk;
    var s := list[0];
    HeadKnown(|p.servers|, list);
    EmptyIsFailed(g, p, SendSide, s, Set(list), Set(reading));
    SkipFailed(g, p, s, Set(list), Set(reading));
    ForwardRefl(p);
  }

  lemma SendSomething(g: Config, e: Round, p: Pool, list: seq<ServerId>, reading: seq<ServerId>)
    requires NoDuplicates(list) && IdsOk(|p.servers|, list) && list != [] && NoDuplicates(reading) && Shaped(g, p)
    requires list[0] < |p.servers| && p.servers[list[0]].sendreq.Some? && PoolOk(g, p, Set(list), Set(reading))
    requires list[0] in e.writable && GoodSends(Script(e.sends, list[0]))
    ensures SentFirst(g, e, p, SendTurn(g, e.up, p, reading, list[0], Script(e.sends, list[0])).0, list, reading)
  {
    hide PoolOk, Shaped, Forward, Set, NoDuplicates, IdsOk, GoodSends, SendTurn, KeepsReading, Accounted, Advanced,
         Script;
    var (s, rest) := (list[0], list[1..]);
    var outs := Script(e.sends, s);
    HeadKnown(|p.servers|, list);
    SendTurnOk(g, e.up, p, reading, s, outs, Set(rest));
    SendTurnGood(g, e.up, p, reading, s, outs, Set(rest));
    var p1 := SendTurn(g, e.up, p, reading, s, outs).0;
    PoolIsShaped(g, p1, Set(rest), Set(reading));
    SameIds(|p.servers|, |p1.servers|, rest);
  }

  lemma SendLater(g: Config, e: Round, p: Pool, list: seq<ServerId>, reading: seq<ServerId>)
    requires NoDuplicates(list) && IdsOk(|p.servers|, list) && list != [] && Shaped(g, p)
    requires list[0] < |p.servers| && p.servers[list[0]].sendreq.Some? && PoolOk(g, p, Set(list), Set(reading))
    requires list[0] !in e.writable
    ensures SentFirst(g, e, p, StaySending(p, list[0]), list, reading)
  {
    hide PoolOk, Shaped, Forward, Set, NoDuplicates, IdsOk, Accounted;
    var (s, rest) := (list[0], list[1..]);
    HeadKnown(|p.servers|, list);
    StayOk(g, p, SendSide, s, Set(rest), Set(reading));
    PoolIsShaped(g, StaySending(p, s), Set(rest), Set(reading));
    StayForward(p, s);
  }

  lemma StayForward(p: Pool, s: ServerId)
    ensures Forward(p, StaySending(p, s)) && Forward(p, StayReading(p, s))
  {
  }

  lemma {:induction false} SendPhaseGood(g: Config, e: Round, p: Pool, list: seq<ServerId>, reading: seq<ServerId>)
    requires NoDuplicates(list) && IdsOk(|p.servers|, list) && NoDuplicates(reading)
    requires Shaped(g, p) && PoolOk(g, p, Set(list), Set(reading))
    requires forall s :: s in list && s in e.writable ==> GoodSends(Script(e.sends, s))
    ensures var (p', left) := SendPhase(g, e, p, list, reading);
            left == reading && Forward(p, p') && AllAdvanced(p, p', list, e.writable)
    decreases |list|
  {
    if list == [] {
      ForwardRefl(p);
    } else {
      hide PoolOk, Shaped, Forward, Set, NoDuplicates, IdsOk, GoodSends, SendTurn, SendPhase, KeepsReading, Only,
           Advanced, AllAdvanced, Script, StaySending;
      var s := list[0];
      HeadKnown(|p.servers|, list);
      var p1 := if p.servers[s].sendreq.None? then p
                else if s in e.writable then SendTurn(g, e.up, p, reading, s, Script(e.sends, s)).0
                else StaySending(p, s);
      if p.servers[s].sendreq.None? {
        SendNothing(g, e, p, list, reading);
      } else if s in e.writable {
        SendSomething(g, e, p, list, reading);
      } else {
        SendLater(g, e, p, list, reading);
      }
      SendPhaseGood(g, e, p1, list[1..], reading);
      var p' := SendPhase(g, e, p1, list[1..], reading).0;
      ForwardTrans(p, p1, p');
      AllAdvancedOn(p, p1, p', s, list[1..], e.writable);
    }
  }

  /** Each ready server in the list of which a reply is due read it, and its request is done; the others did
      not move. */
  ghost predicate AllAnswered(p: Pool, p': Pool, list: seq<ServerId>, ready: set<ServerId>) {
    && |p'.servers| == |p.servers|
    && (forall t :: t in list && t in ready && t < |p.servers| && Due(p.servers[t]) ==>
          p.servers[t].readreq.value in p'.free)
    && (forall t :: 0 <= t < |p.servers| && (t !in list || t !in ready) ==> p'.servers[t] == p.servers[t])
  }

  lemma AllAnsweredOn(p: Pool, p1: Pool, p2: Pool, s: ServerId, rest: seq<ServerId>, ready: set<ServerId>)
    requires Forward(p1, p2) && Only(p, p1, s) && s !in rest && AllAnswered(p1, p2, rest, ready)
    requires if s in ready then Due(p.servers[s]) ==> p.servers[s].readreq.value in p1.free
             else p1.servers == p.servers
    ensures AllAnswered(p, p2, [s] + rest, ready)
  {
    assert forall t :: t in [s] + rest <==> t == s || t in rest;
  }

  /** What the phase over the list does first leads to p1, in which the first server read its reply if one was due. */
  ghost predicate ReadFirst(g: Config, e: Round, p: Pool, p1: Pool, list: seq<ServerId>)
    requires list != [] && Shaped(g, p) && IdsOk(|p.servers|, list)
  {
    && Shaped(g, p1) && IdsOk(|p1.servers|, list[1..]) && PoolOk(g, p1, {}, Set(list[1..]))
    && PhaseKept(g, e, p1, list[1..]) && ReadPhase(g, e, p, list) == ReadPhase(g, e, p1, list[1..])
    && Forward(p, p1) && list[0] < |p.servers| && Only(p, p1, list[0])
    && if list[0] in e.readable then Due(p.servers[list[0]]) ==> p.servers[list[0]].readreq.value in p1.free
       else p1.servers == p.servers
  }

  lemma ReadNothing(g: Config, e: Round, p: Pool, list: seq<ServerId>)
    requires NoDuplicates(list) && IdsOk(|p.servers|, list) && list != [] && Shaped(g, p) && PhaseKept(g, e, p, list)
    requires list[0] < |p.servers| && p.servers[list[0]].readreq.None? && PoolOk(g, p, {}, Set(list))
    ensures ReadFirst(g, e, p, p, list)
  {
    hide PoolOk, Shaped, Forward, Set, NoDuplicates, IdsOk;
    var s := list[0];
    HeadKnown(|p.servers|, list);
    var none: set<ServerId> := {};
    assert none - {s} == {};
    EmptyIsFailed(g, p, ReadSide, s, {}, Set(list));
    SkipFailed(g, p, s, {}, Set(list));
    ForwardRefl(p);
  }

  lemma ReadSomething(g: Config, e: Round, p: Pool, list: seq<ServerId>)
    requires NoDuplicates(list) && IdsOk(|p.servers|, list) && list != [] && Shaped(g, p) && PhaseKept(g, e, p, list)
    requires list[0] < |p.servers| && p.servers[list[0]].readreq.Some? && PoolOk(g, p, {}, Set(list))
    requires list[0] in e.readable && list[0] in e.up && GoodParses(Script(e.parses, list[0]))
    ensures ReadFirst(g, e, p, ReadTurn(g, e.up, p, list[0], Script(e.parses, list[0])), list)
  {
    hide PoolOk, Shaped, Forward, Set, NoDuplicates, IdsOk, GoodParses, ReadTurn, TurnKept, Accounted, Script;
    var (s, rest) := (list[0], list[1..]);
    var outs := Script(e.parses, s);
    HeadKnown(|p.servers|, list);
    var none: set<ServerId> := {};
    assert none - {s} == {} && none + {s} == {s};
    ReadTurnOk(g, e.up, p, s, outs, Set(rest));
    ReadTurnGood(g, e.up, p, s, outs, Set(rest));
    var p1 := ReadTurn(g, e.up, p, s, outs);
    PoolIsShaped(g, p1, {}, Set(rest));
    SameIds(|p.servers|, |p1.servers|, rest);
  }

  lemma ReadLater(g: Config, e: Round, p: Pool, list: seq<ServerId>)
    requires NoDuplicates(list) && IdsOk(|p.servers|, list) && list != [] && Shaped(g, p) && PhaseKept(g, e, p, list)
    requires list[0] < |p.servers| && p.servers[list[0]].readreq.Some? && PoolOk(g, p, {}, Set(list))
    requires list[0] !in e.readable
    ensures ReadFirst(g, e, p, StayReading(p, list[0]), list)
  {
    hide PoolOk, Shaped, Forward, Set, NoDuplicates, IdsOk, Accounted;
    var (s, rest) := (list[0], list[1..]);
    HeadKnown(|p.servers|, list);
    StayOk(g, p, ReadSide, s, {}, Set(rest));
    PoolIsShaped(g, StayReading(p, s), {}, Set(rest));
    StayForward(p, s);
  }

  lemma {:induction false} ReadPhaseGood(g: Config, e: Round, p: Pool, list: seq<ServerId>)
    requires NoDuplicates(list) && IdsOk(|p.servers|, list) && Shaped(g, p)
    requires PoolOk(g, p, {}, Set(list)) && PhaseKept(g, e, p, list)
    requires forall s :: s in list && s in e.readable ==> s in e.up && GoodParses(Script(e.parses, s))
    ensures Forward(p, ReadPhase(g, e, p, list)) && AllAnswered(p, ReadPhase(g, e, p, list), list, e.readable)
    decreases |list|
  {
    if list == [] {
      ForwardRefl(p);
    } else {
      hide PoolOk, Shaped, Forward, Set, NoDuplicates, IdsOk, GoodParses, ReadTurn, ReadPhase, PhaseKept, Only,
           AllAnswered, Script, StayReading;
      var s := list[0];
      HeadKnown(|p.servers|, list);
      var p1 := if p.servers[s].readreq.None? then p
                else if s in e.readable then ReadTurn(g, e.up, p, s, Script(e.parses, s))
                else StayReading(p, s);
      if p.servers[s].readreq.None? {
        ReadNothing(g, e, p, list);
      } else if s in e.readable {
        ReadSomething(g, e, p, list);
      } else {
        ReadLater(g, e, p, list);
      }
      ReadPhaseGood(g, e, p1, list[1..]);
      ForwardTrans(p, p1, ReadPhase(g, e, p1, list[1..]));
      AllAnsweredOn(p, p1, ReadPhase(g, e, p1, list[1..]), s, list[1..], e.readable);
    }
  }

  /** In a round in which nothing fails every ready server that is listed for sending sends something of the request in
      its slot, every ready server that is listed for reading and of which a reply is due reads it, and the others stay
      as they are. Nothing is undone. */
  lemma RoundGood(g: Config, e: Round, p: Pool)
    requires Settled(g, p) && GoodRound(g, e, p)
    ensures var p' := Select(g, e, p);
            && Settled(g, p') && Forward(p, p')
            && (forall s :: s in p.sending && s in e.writable ==>
                  s < |p.servers| && p.servers[s].sendreq.Some? && Advanced(p, p', p.servers[s].sendreq.value))
            && (forall s :: s in p.reading && s in e.readable && s < |p.servers| && Due(p.servers[s]) ==>
                  p.servers[s].readreq.value in p'.free)
            && (forall s :: 0 <= s < |p.servers| && Unvisited(e, p, s) ==> p'.servers[s] == p.servers[s])
  {
    assert LiveUp(e.up, p) && Shaped(g, p);
    hide *;
    LiveUpKeeps(g, e, p);
    SelectOk(g, e, p);
    RoundSends(g, e, p);
    var (p3, left) := BeforeRead(g, e, p);
    RoundReads(g, e, p, p3, left);
    ForwardTrans(p, p3, Select(g, e, p));
    ListsKnown(g, p);
    AdvancedOn(p, p3, Select(g, e, p));
    AllOfThem(p, p3, Select(g, e, p), e);
  }

  lemma AllOfThem(p: Pool, p3: Pool, p': Pool, e: Round)
    requires AllAdvanced(p, p3, p.sending, e.writable) && AllAnswered(p3, p', p.reading, e.readable)
    requires forall x :: (Advanced(p, p3, x) || Advanced(p3, p', x)) ==> Advanced(p, p', x)
    requires forall s :: s in p.sending ==> s < |p.servers| && p.servers[s].sendreq.Some?
    ensures forall s :: s in p.sending && s in e.writable ==>
              s < |p.servers| && p.servers[s].sendreq.Some? && Advanced(p, p', p.servers[s].sendreq.value)
    ensures forall s :: s in p.reading && s in e.readable && s < |p.servers| && Due(p.servers[s]) ==>
              p.servers[s].readreq.value in p'.free
    ensures |p'.servers| == |p.servers|
    ensures forall s :: 0 <= s < |p.servers| && Unvisited(e, p, s) ==> p'.servers[s] == p.servers[s]
  {
    hide Advanced;
    forall t | t in p.reading && t in e.readable && t < |p.servers| && Due(p.servers[t])
      ensures p.servers[t].readreq.value in p'.free
    {
      assert KeepsReading(p.servers[t], p3.servers[t]);
    }
  }

  lemma RoundSends(g: Config, e: Round, p: Pool)
    requires Settled(g, p) && GoodRound(g, e, p) && Shaped(g, p)
    ensures var (p3, left) := BeforeRead(g, e, p);
            && left == p.reading && Forward(p, p3) && AllAdvanced(p, p3, p.sending, e.writable)
            && PoolOk(g, p3, {}, Set(left)) && NoDuplicates(left) && IdsOk(|p3.servers|, left)
  {
    SwitchOk(g, p);
    BeforeReadOk(g, e, p);
    var p0 := p.(sending := [], reading := []);
    assert Forward(p, p0) && Shaped(g, p0) && PoolOk(g, p0, Set(p.sending), Set(p.reading));
    assert NoDuplicates(p.sending) && NoDuplicates(p.reading);
    assert forall s :: s in p.sending && s in e.writable ==> GoodSends(Script(e.sends, s));
    assert BeforeRead(g, e, p) == SendPhase(g, e, p0, p.sending, p.reading);
    hide *;
    SendPhaseGood(g, e, p0, p.sending, p.reading);
    var p3 := SendPhase(g, e, p0, p.sending, p.reading).0;
    ForwardTrans(p, p0, p3);
    SameNumber(p, p0, p3);
    SameIds(|p.servers|, |p3.servers|, p.reading);
    FromLists(p, p0, p3, e.writable);
  }

  /** Taking the lists moves no server. */
  lemma FromLists(p: Pool, p0: Pool, p': Pool, ready: set<ServerId>)
    requires p0 == p.(sending := [], reading := []) && AllAdvanced(p0, p', p.sending, ready)
    ensures AllAdvanced(p, p', p.sending, ready)
  {
    assert forall x :: Advanced(p0, p', x) ==> Advanced(p, p', x);
    hide Advanced;
  }

  lemma SameNumber(p: Pool, p0: Pool, p': Pool)
    requires Forward(p0, p') && p0.servers == p.servers
    ensures |p'.servers| == |p.servers|
  {
  }

  lemma SameIds(n: nat, m: nat, ids: seq<ServerId>)
    requires IdsOk(n, ids) && n == m
    ensures IdsOk(m, ids)
  {
  }

  lemma RoundReads(g: Config, e: Round, p: Pool, p3: Pool, left: seq<ServerId>)
    requires Shaped(g, p) && GoodRound(g, e, p) && RoundKept(g, e, p) && BeforeRead(g, e, p) == (p3, left)
    requires left == p.reading && PoolOk(g, p3, {}, Set(left)) && NoDuplicates(left) && IdsOk(|p3.servers|, left)
    requires IdsOk(g.numServers, p.reading)
    ensures Forward(p3, Select(g, e, p)) && AllAnswered(p3, Select(g, e, p), left, e.readable)
  {
    assert PhaseKept(g, e, p3, left) && Shaped(g, p3) && Select(g, e, p) == ReadPhase(g, e, p3, left);
    assert forall s :: s in left && s in e.readable ==> s in e.up && GoodParses(Script(e.parses, s));
    hide *;
    ReadPhaseGood(g, e, p3, left);
  }

  /** Some socket is ready on which there is something to send or a reply to read. */
  ghost predicate SomeReady(e: Round, p: Pool) {
    (exists s :: s in p.sending && s in e.writable)
    || (exists s :: s in p.reading && s in e.readable && s < |p.servers| && Due(p.servers[s]))
  }

  /** That is so as long as a server is listed and every listed one is ready. */
  lemma SomethingToDo(g: Config, e: Round, p: Pool)
    requires Settled(g, p) && Listing(p)
    requires (forall s :: s in p.sending ==> s in e.writable) && (forall s :: s in p.reading ==> s in e.readable)
    ensures SomeReady(e, p)
  {
    ListsKnown(g, p);
    if p.sending != [] { assert p.sending[0] in p.sending; } else { assert p.reading[0] in p.reading; }
  }

  lemma RoundMoves(g: Config, e: Round, p: Pool)
    requires Settled(g, p) && GoodRound(g, e, p) && SomeReady(e, p)
    ensures Settled(g, Select(g, e, p)) && Forward(p, Select(g, e, p)) && Moves(p, Select(g, e, p))
  {
    RoundGood(g, e, p);
    ListsKnown(g, p);
    var p' := Select(g, e, p);
    if s :| s in p.sending && s in e.writable {
      AdvancedMoves(p, p', p.servers[s].sendreq.value);
    } else {
      var t :| t in p.reading && t in e.readable && t < |p.servers| && Due(p.servers[t]);
      ReadLineKnown(g, p, t, {}, {});
      var x := p.servers[t].readreq.value;
      assert Weight(p', x) < Weight(p, x);
    }
  }

  /** A listed server has something to send; if none has, one that is listed for reading has a reply due. */
  lemma ListsKnown(g: Config, p: Pool)
    requires Settled(g, p)
    ensures IdsOk(|p.servers|, p.sending) && IdsOk(|p.servers|, p.reading)
    ensures IdsOk(g.numServers, p.reading)
    ensures forall s :: s in p.sending ==> s < |p.servers| && p.servers[s].sendreq.Some?
    ensures p.sending == [] && p.reading != [] ==>
              p.reading[0] < |p.servers| && Due(p.servers[p.reading[0]])
  {
    if p.sending == [] && p.reading != [] {
      var t := p.reading[0];
      assert t in p.reading && ServerOk(p.requests, t, p.servers[t]);
      assert SlotOf(SendSide, p.servers[t]).None? && SlotOf(ReadSide, p.servers[t]).Some?;
      assert SendLine(p.servers[t]) == [] && Sent(p.servers[t]) == ReadLine(p.servers[t]);
    }
  }

  /** Nothing fails in any round of the run, and each has something to do. */
  ghost predicate GoodRun(g: Config, es: seq<Round>, p: Pool)
    requires Shaped(g, p)
    decreases |es|
  {
    es == [] || !Listing(p) || (GoodRound(g, es[0], p) && SomeReady(es[0], p)
                                && GoodRun(g, es[1..], Select(g, es[0], p)))
  }

  /** A run in which nothing fails comes to its end: after at most as many rounds as there are bytes to be sent and
      replies to be read the loop finds no server listed, and every request was answered. */
  lemma {:induction false} RunFinishes(g: Config, es: seq<Round>, p: Pool)
    requires Settled(g, p) && GoodRun(g, es, p) && |es| >= Work(p, |p.requests|)
    ensures var p' := Run(g, es, p);
            && !Listing(p') && p.log <= p'.log
            && forall r :: Tracked(p, r) ==> r in p'.free && (r in p.free || Answered(p, p', r))
    decreases |es|
  {
    if !Listing(p) {
      NothingListed(g, p);
    } else {
      ListedWork(g, p);
      RoundMoves(g, es[0], p);
      var p1 := Select(g, es[0], p);
      WorkLess(p, p1, |p.requests|);
      assert |p1.requests| == |p.requests| && Work(p1, |p1.requests|) < Work(p, |p.requests|);
      assert LiveUp(es[0].up, p);
      LiveUpKeeps(g, es[0], p);
      SelectOk(g, es[0], p);
      assert forall r :: Tracked(p, r) ==> Tracked(p1, r);
      hide Settled, Select, Work, RoundKept, LiveUp, GoodRound, SomeReady, Tracked, Accounted;
      RunFinishes(g, es[1..], p1);
      var p' := Run(g, es[1..], p1);
      forall r | Tracked(p, r) ensures r in p'.free && (r in p.free || Answered(p, p', r)) {
        AnsweredOn(p, p1, p', r);
      }
    }
  }

  lemma AnsweredOn(p: Pool, p1: Pool, p2: Pool, r: RequestId)
    requires Forward(p, p1) && p1.log <= p2.log && (r in p1.free || Answered(p1, p2, r))
    ensures r in p.free || Answered(p, p2, r)
  {
    if r in p1.free && r !in p.free {
      var k :| |p.log| <= k < |p1.log| && p1.log[k] == (r, r);
      assert p2.log[k] == (r, r);
    } else if r !in p1.free {
      var k :| |p1.log| <= k < |p2.log| && p2.log[k] == (r, r);
      assert |p.log| <= k;
    }
  }

  /** A server that is listed has a request. */
  lemma ListedWork(g: Config, p: Pool)
    requires Settled(g, p) && Listing(p)
    ensures Work(p, |p.requests|) > 0
  {
    ListsKnown(g, p);
    assert p.sending != [] ==> p.sending[0] in p.sending;
    var s := if p.sending != [] then p.sending[0] else p.reading[0];
    assert ServerOk(p.requests, s, p.servers[s]);
    if p.sending != [] { assert |SendLine(p.servers[s])| > 0; }
    ReadLineKnown(g, p, s, {}, {});
    assert ReadLine(p.servers[s]) != [];
    WorkPositive(p, |p.requests|, ReadLine(p.servers[s])[0]);
  }

  lemma {:induction false} WorkPositive(p: Pool, n: nat, x: RequestId)
    requires x < n <= |p.requests| && x !in p.free
    ensures Work(p, n) > 0
  {
    if x < n - 1 { WorkPositive(p, n - 1, x); }
  }
}
