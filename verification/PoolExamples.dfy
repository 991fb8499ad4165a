/** Concrete pools at which a property of the pool fails; the first two are within a caller's reach. */
module PoolExamples {
  import opened Basics
  import opened Wrappers
  import opened Sequences
  import opened Routing
  import opened PoolModel
  import opened PoolInvariant
  import opened PoolRound
  import opened PoolTurns
  import opened PoolRuns
  import opened PoolLanding
  import opened PoolReconnect
  import opened PoolRetry
  import opened PoolRefused
  import opened PoolClients

  // ---------------------------------------------------------------------------------------------------------
  // An answered request is sent again

  /** Two servers; every key belongs to server 0, and server 1 is its alternative. */
  const Two := Config(2, true, 3, (k: Key) => 0, (k: Key, i: nat) => 1)

  const BothUp: set<ServerId> := {0, 1}

  const FirstCall := Submit("a", "aa", 1, BothUp)
  const SecondCall := Submit("b", "bb", 1, BothUp)

  /** One byte of the first request is written. */
  const PartWritten := Turn(Round(BothUp, false, {0}, {}, map[0 := [Wrote(1)]], map[]))

  const Fresh := Server(Disconnected, None, [], None, [], [])

  const OneQueued := Pool([Server(Connected, Some(0), [], Some(0), [], []), Fresh],
                          [Request("a", "aa", 0, Some(0), [], 0, true)], [0], [0], [], [])

  const TwoQueued := Pool([Server(Connected, Some(0), [1], Some(0), [1], []), Fresh],
                          [Request("a", "aa", 0, Some(0), [], 0, true), Request("b", "bb", 0, None, [], 0, true)],
                          [0], [0], [], [])

  const Begun := Pool([Server(Connected, Some(0), [1], Some(0), [1], [0]), Fresh],
                      [Request("a", "aa", 1, Some(0), [], 0, true), Request("b", "bb", 0, None, [], 0, true)],
                      [0], [0], [], [])

  /** The reply to the first request arrives, and server 0 refuses another connection. */
  const Refused := Round({1}, false, {}, {0}, map[], map[0 := [Reply]])

  lemma FirstStep()
    ensures Shaped(Two, NewPool(Two)) && SubmitTo(Two, FirstCall, NewPool(Two)) == OneQueued
  {
    var p := NewPool(Two);
    assert p.servers == [Fresh, Fresh];
    NewPoolSettled(Two);
    var (p1, r) := Prepare(p, "a", "aa", true);
    PrepareShaped(Two, p, "a", "aa");
    assert r == 0 && p1.requests == [Request("a", "aa", 0, None, [], 0, true)];
    assert Home(Two, p1, "a") == 0;
    NoCopies(Two, BothUp, p1, 0, "a", 1);
    EnqueueServer(p1, 0, 0);
    var p2 := Enqueue(p1, 0, 0);
    assert p2.servers == OneQueued.servers && p2.requests == OneQueued.requests;
    assert p2.sending == [0] && p2.reading == [0];
    assert p2 == OneQueued;
  }

  lemma SecondStep()
    requires Shaped(Two, OneQueued)
    ensures SubmitTo(Two, SecondCall, OneQueued) == TwoQueued
  {
    var (p1, r) := Prepare(OneQueued, "b", "bb", true);
    PrepareShaped(Two, OneQueued, "b", "bb");
    assert r == 1 && p1.requests == OneQueued.requests + [Request("b", "bb", 0, None, [], 0, true)];
    assert Home(Two, p1, "b") == 0;
    NoCopies(Two, BothUp, p1, 1, "b", 1);
    SecondEnqueued(p1);
  }

  lemma SecondEnqueued(p: Pool)
    requires p == OneQueued.(requests := OneQueued.requests + [Request("b", "bb", 0, None, [], 0, true)])
    ensures Enqueue(p, 0, 1) == TwoQueued
  {
    EnqueueServer(p, 0, 1);
    assert PushUnique([], 1) == [1];
    assert Enqueue(p, 0, 1).servers[0] == TwoQueued.servers[0] && Enqueue(p, 0, 1).servers == TwoQueued.servers;
    EnqueueRequests(p, 0, 1);
    assert Enqueue(p, 0, 1).requests == TwoQueued.requests;
  }

  lemma TurnStep()
    requires Shaped(Two, TwoQueued)
    ensures Select(Two, PartWritten.round, TwoQueued) == Begun
  {
    var e, p := PartWritten.round, TwoQueued;
    var p0 := p.(sending := [], reading := []);
    var p1 := Begun.(sending := [], reading := []);
    assert Written(p0.requests[0], 1) == 1 && p0.servers[0].wire + [0] == [0];
    assert Write(p0, 0, 0, 1).servers[0] == p1.servers[0];
    assert Write(p0, 0, 0, 1).servers == p1.servers && Write(p0, 0, 0, 1).requests == p1.requests;
    assert Write(p0, 0, 0, 1) == p1;
    WriteShaped(Two, p0, 0, 0, 1);
    assert Script(e.sends, 0) == [Wrote(1)];
    var p2 := StaySending(p1, 0);
    assert SendTurn(Two, e.up, p0, [0], 0, [Wrote(1)]) == (p2, [0]);
    assert SendPhase(Two, e, p2, [], [0]) == (p2, [0]);
    assert SendPhase(Two, e, p0, [0], [0]) == (p2, [0]) by { assert [0][1..] == []; }
    assert StayReading(p2, 0) == Begun;
    assert ReadPhase(Two, e, p2, [0]) == Begun by {
      assert [0][1..] == [];
      assert ReadPhase(Two, e, Begun, []) == Begun;
    }
  }

  /** One more call. */
  lemma ReachOn(g: Config, q: Pool, calls: seq<Call>, c: Call, p: Pool)
    requires ConfigOk(g) && Reachable(g, q, calls) && StepTo(g, q, c, p)
    ensures Reachable(g, p, calls + [c]) && Reached(g, p)
  {
    assert (calls + [c])[..|calls|] == calls;
    ReachableReached(g, p, calls + [c]);
  }

  /** A caller can get there, and so everything the invariant says holds. */
  lemma BegunIsReachable()
    ensures Reachable(Two, Begun, [FirstCall] + [SecondCall] + [PartWritten]) && Reached(Two, Begun)
  {
    assert ConfigOk(Two);
    assert Reachable(Two, NewPool(Two), []);
    NewPoolSettled(Two);
    FirstStep();
    assert Reached(Two, NewPool(Two));
    hide SubmitTo, Reachable, Reached, Shaped, NewPool;
    CallOn(Two, NewPool(Two), [], FirstCall, OneQueued);
    assert [] + [FirstCall] == [FirstCall];
    TwoReached();
    TurnReached();
  }

  lemma TwoReached()
    requires Reachable(Two, OneQueued, [FirstCall]) && Reached(Two, OneQueued)
    ensures Reachable(Two, TwoQueued, [FirstCall] + [SecondCall]) && Reached(Two, TwoQueued)
  {
    hide Reachable, Reached, SubmitTo;
    ShapedWhenReached(Two, OneQueued);
    SecondStep();
    CallOn(Two, OneQueued, [FirstCall], SecondCall, TwoQueued);
  }

  lemma TurnReached()
    requires Reachable(Two, TwoQueued, [FirstCall] + [SecondCall]) && Reached(Two, TwoQueued)
    ensures Reachable(Two, Begun, [FirstCall] + [SecondCall] + [PartWritten]) && Reached(Two, Begun)
  {
    hide Reachable, Reached, Select, LiveUp, Shaped;
    BothLive();
    ShapedWhenReached(Two, TwoQueued);
    TurnStep();
    RoundOn(Two, TwoQueued, [FirstCall] + [SecondCall], PartWritten.round, Begun);
  }

  lemma BothLive()
    ensures LiveUp(PartWritten.round.up, TwoQueued)
  {
  }

  lemma ShapedWhenReached(g: Config, p: Pool)
    requires Reached(g, p)
    ensures Shaped(g, p)
  {
  }

  /** A call without copies, and a round in which live servers accept another connection. */
  lemma CallOn(g: Config, q: Pool, calls: seq<Call>, c: Call, p: Pool)
    requires Reachable(g, q, calls) && Reached(g, q) && Shaped(g, q)
    requires c.Submit? && c.sendbuf != "" && c.redundancy <= 1 && p == SubmitTo(g, c, q)
    ensures Reachable(g, p, calls + [c]) && Reached(g, p)
  {
    PrepareShaped(g, q, c.key, c.sendbuf);
    assert q.free != [] ==> q.free[0] in q.free;
    var (q1, r) := Prepare(q, c.key, c.sendbuf, true);
    assert r < |q1.requests|;
    NoCopies(g, c.up, q1, r, c.key, c.redundancy);
    ShapedConfig(g, q);
    hide Reachable, Reached, SubmitTo, Prepare, Shaped, CopiesFit;
    ReachOn(g, q, calls, c, p);
  }

  lemma RoundOn(g: Config, q: Pool, calls: seq<Call>, e: Round, p: Pool)
    requires Reachable(g, q, calls) && Reached(g, q) && Shaped(g, q) && LiveUp(e.up, q) && p == Select(g, e, q)
    ensures Reachable(g, p, calls + [Turn(e)]) && Reached(g, p)
  {
    LiveUpKeeps(g, e, q);
    ShapedConfig(g, q);
    hide Reachable, Reached, Select, RoundKept, LiveUp, Shaped;
    ReachOn(g, q, calls, Turn(e), p);
  }

  /** The round in which the reply arrives early. */
  lemma RefusedRound()
    requires Reached(Two, Begun)
    ensures Shaped(Two, Begun.(reading := [])) && PoolOk(Two, Begun.(reading := []), {}, {0})
    ensures Select(Two, Refused, Begun) == ReadDone(Two, Refused.up, Begun.(reading := []), 0).0
  {
    var e, p3 := Refused, Begun.(reading := []);
    BeforeReadOk(Two, e, Begun);
    RefusedBefore();
    assert Set([0]) == {0};
    RefusedRead(p3);
    hide BeforeRead, ReadPhase, ReadDone, PoolOk;
  }

  lemma RefusedBefore()
    requires Shaped(Two, Begun)
    ensures BeforeRead(Two, Refused, Begun) == (Begun.(reading := []), [0])
  {
    var e, p3 := Refused, Begun.(reading := []);
    var p0 := Begun.(sending := [], reading := []);
    assert StaySending(p0, 0) == p3;
    assert SendPhase(Two, e, p3, [], [0]) == (p3, [0]);
    assert SendPhase(Two, e, p0, [0], [0]) == (p3, [0]) by { assert [0][1..] == []; }
  }

  lemma RefusedRead(p3: Pool)
    requires p3 == Begun.(reading := []) && Shaped(Two, p3)
    ensures ReadPhase(Two, Refused, p3, [0]) == ReadDone(Two, Refused.up, p3, 0).0
  {
    var e := Refused;
    LostPointer(p3);
    assert Script(e.parses, 0) == [Reply];
    hide ReadDone;
    var p4 := ReadDone(Two, e.up, p3, 0).0;
    assert ReadTurn(Two, e.up, p4, 0, []) == p4;
    assert ReadTurn(Two, e.up, p3, 0, [Reply]) == p4 by { assert [Reply][1..] == []; }
    assert [0][1..] == [] && ReadPhase(Two, e, p4, []) == p4;
  }

  lemma LostPointer(p3: Pool)
    requires p3 == Begun.(reading := []) && Shaped(Two, p3)
    ensures ReadDone(Two, Refused.up, p3, 0).0.servers[0].readreq.None?
  {
    ReleaseExact(Two, Refused.up, p3, 0);
    hide ReadDone;
  }

  /** From a pool a caller can reach, a round in which the reply to the first request is read and server 0 refuses a
      connection: the request is on a server again and will be sent a second time. */
  lemma AnsweredAndSentAgain()
    ensures Reachable(Two, Begun, [FirstCall] + [SecondCall] + [PartWritten]) && Shaped(Two, Begun)
    ensures var p := Select(Two, Refused, Begun);
            (exists t :: On(p, t, 0)) && !Finished(p, 0)
  {
    BegunIsReachable();
    RefusedRound();
    var p3 := Begun.(reading := []);
    hide Reachable, PoolOk, ReadDone, Select, On, Finished;
    LostAndSent(p3);
  }

  lemma LostAndSent(p3: Pool)
    requires p3 == Begun.(reading := []) && PoolOk(Two, p3, {}, {0})
    ensures Shaped(Two, p3)
    ensures var p := ReadDone(Two, Refused.up, p3, 0).0; (exists t :: On(p, t, 0)) && !Finished(p, 0)
  {
    assert Complete(Two, p3, 0, 0, {}, {0}) && LostReconnect(Refused.up, p3, 0);
    assert Usable({1}, p3, 1) && 1 in Usables(Refused.up, p3) - {0};
    assert FindNext(Two, "a", [0], 0) == (1, 1) && PushUnique([], 0) == [0];
    assert Place(Two, Usables(Refused.up, p3) - {0}, p3.requests[0], 0) == Lands(1, [0], 1);
    hide PoolOk, ReadDone, Place;
    LostSentAgain(Two, Refused.up, p3, 0, 0, {}, {0});
  }

  // ---------------------------------------------------------------------------------------------------------
  // A copy that is the request itself

  /** Two servers without failover. */
  const NoFailover := Config(2, false, 1, (k: Key) => 0, (k: Key, i: nat) => 1)

  /** A request and a copy, in a new pool whose server 0 refuses connections: the request is released onto an empty
      free list, and the copy that goes to server 1 is the request again, with its bytes gone. */
  lemma CopyOfItself()
    ensures Shaped(NoFailover, NewPool(NoFailover))
    ensures var p := SubmitTo(NoFailover, Submit("a", "aa", 2, {1}), NewPool(NoFailover));
            |p.requests| == 1 && On(p, 1, 0) && p.requests[0].sendbuf == "" && !Reached(NoFailover, p)
  {
    var g, p, c := NoFailover, NewPool(NoFailover), Submit("a", "aa", 2, {1});
    NewPoolSettled(g);
    var (p1, r) := Prepare(p, "a", "aa", true);
    PrepareShaped(g, p, "a", "aa");
    OnePrepared();
    hide NewPool, Prepare, Home, Shaped, Settled;
    FirstRefused(p1);
    CopyTarget();
    var p2 := Schedule(g, {1}, p1, 0, 0);
    CopyBlank(p2);
    OneCopy(g, {1}, p2, 0, 1);
    hide CopyOne, Schedule, ScheduleCopies, Replicas;
    assert SubmitTo(g, c, p) == CopyOne(g, {1}, p2, 0, 1);
    assert !LengthsOk(CopyOne(g, {1}, p2, 0, 1));
  }

  lemma OnePrepared()
    ensures var (p1, r) := Prepare(NewPool(NoFailover), "a", "aa", true);
            && p1.servers == [Fresh, Fresh] && p1.requests == [Request("a", "aa", 0, None, [], 0, true)]
            && p1.free == [] && r == 0 && Shaped(NoFailover, p1) && Home(NoFailover, p1, "a") == 0
  {
    NewPoolSettled(NoFailover);
    PrepareShaped(NoFailover, NewPool(NoFailover), "a", "aa");
  }

  lemma CopyTarget()
    ensures Replicas(NoFailover, "a", [], 0, 0, 1).0 == [1]
    ensures IdsOk(NoFailover.numServers, [1])
  {
    assert FindNext(NoFailover, "a", [0], 0) == (1, 1) && PushUnique([], 0) == [0];
  }

  lemma OneCopy(g: Config, up: set<ServerId>, p: Pool, r: RequestId, s: ServerId)
    requires Shaped(g, p) && r < |p.requests| && s < g.numServers
    ensures IdsOk(g.numServers, [s]) && ScheduleCopies(g, up, p, r, [s]) == CopyOne(g, up, p, r, s)
  {
    assert [s][1..] == [];
    hide CopyOne;
    assert ScheduleCopies(g, up, CopyOne(g, up, p, r, s), r, []) == CopyOne(g, up, p, r, s);
  }

  lemma FirstRefused(p1: Pool)
    requires Shaped(NoFailover, p1) && p1.servers == [Fresh, Fresh] && p1.free == []
    requires p1.requests == [Request("a", "aa", 0, None, [], 0, true)]
    ensures var p2 := Schedule(NoFailover, {1}, p1, 0, 0);
            p2.servers == [DownServer, Fresh] && |p2.requests| == 1 && p2.free == [0]
  {
    assert Tidy({1}, p1);
    assert Usable({1}, p1, 1) && !Usable({1}, p1, 0);
    hide Schedule, Shaped;
    ScheduleLands(NoFailover, {1}, p1, 0, 0);
    var p2 := Schedule(NoFailover, {1}, p1, 0, 0);
    assert p2.servers[1] == Fresh && 0 in Down(p2);
    assert p2.servers[0] == DownServer;
  }

  lemma CopyBlank(p2: Pool)
    requires Shaped(NoFailover, p2) && p2.servers == [DownServer, Fresh] && |p2.requests| == 1 && p2.free == [0]
    ensures var p3 := CopyOne(NoFailover, {1}, p2, 0, 1);
            |p3.requests| == 1 && On(p3, 1, 0) && p3.requests[0].sendbuf == ""
  {
    CloneShaped(NoFailover, p2, 0);
    var (p, c) := Clone(p2, 0);
    assert c == 0 && p.requests == [Request("", "", 0, None, [], 0, false)];
    EnqueueServer(p, 1, 0);
    EnqueueRequests(p, 1, 0);
    assert Schedule(NoFailover, {1}, p, 1, 0) == Enqueue(p, 1, 0);
  }

  // ---------------------------------------------------------------------------------------------------------
  // A retry that puts a request in line twice

  /** Two requests on a stream that was found closed. */
  const Closed := Pool([Server(Disconnected, Some(0), [1], Some(0), [1], []), Fresh],
                       [Request("a", "aa", 0, Some(0), [], 0, true), Request("b", "bb", 0, None, [], 0, true)],
                       [0], [0], [], [])

  /** Server 0 refuses to be opened again. The second request goes to server 1 first in line, and then once more. */
  lemma RetryBreaks()
    ensures AlignOk(Two, Closed) && On(Closed, 0, 0) && RetryRefused({1}, Closed, 0, 0)
    ensures !AlignOk(Two, SelectRetry(Two, {1}, Closed, 0, 0))
  {
    ClosedAligned();
    ClosedUnsafe();
    hide AlignOk, SelectRetry, RetrySafe, Clear, Tidy;
    RetryExact(Two, {1}, Closed, 0, 0);
  }

  lemma ClosedUnsafe()
    ensures RetryRefused({1}, Closed, 0, 0) && !RetrySafe(Two, {1}, Closed, 0, 0)
  {
    assert Usables({1}, Closed) - {0} == {1};
    assert OutOfQueues(Closed, 0, 0).servers[0].sendqueue == [1]
      && Evicted(OutOfQueues(Closed, 0, 0).servers[0]) == [1, 0];
    assert Before([1, 0], 1) == [];
    SecondAgain();
    hide SameEnd, Usables;
  }

  lemma SecondAgain()
    ensures !SameEnd(Two, {1}, Closed, 0, [], 1)
  {
    assert FindNext(Two, "b", [0], 0) == (1, 1) && PushUnique([], 0) == [0];
    assert Place(Two, {1}, Closed.requests[1], 0) == Lands(1, [0], 1);
  }

  lemma ClosedAligned()
    ensures AlignOk(Two, Closed) && Tidy({1}, Clear(Closed, 0)) && On(Closed, 0, 0) && Without([1], 0) == [1]
  {
    assert SendLine(Closed.servers[0]) == [0, 1] == ReadLine(Closed.servers[0]);
    assert ReadLine(Fresh) == [] == SendLine(Fresh);
  }
}
