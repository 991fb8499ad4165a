/** Handing requests to the pool: allocation, redundant copies, and the states that any mix of requests and rounds
    can reach. */
module PoolClients {
  import opened Basics
  import opened Wrappers
  import opened Sequences
  import opened Routing
  import opened PoolModel
  import opened PoolInvariant
  import opened PoolFailover
  import opened PoolRound
  import opened PoolRuns
  import opened PoolLanding
  import opened PoolReconnect

  /** mmc_pool_request_alloc: the oldest free request, emptied, or a new one. */
  function Alloc(p: Pool): (r: (Pool, RequestId))
  {
    var blank := Request("", "", 0, None, [], 0, false);
    if p.free == [] then (p.(requests := p.requests + [blank]), |p.requests|)
    else if p.free[0] < |p.requests| then
      (p.(requests := p.requests[p.free[0] := blank], free := p.free[1..]), p.free[0])
    else (p, p.free[0])
  }

  /** mmc_pool_clone_request. The copy is made after the allocation. */
  function Clone(p: Pool, r: RequestId): (Pool, RequestId)
    requires r < |p.requests|
  {
    var (p1, c) := Alloc(p);
    if c < |p1.requests| then
      var src := p1.requests[r];
      (p1.(requests := p1.requests[c := p1.requests[c].(key := src.key, sendbuf := src.sendbuf)]), c)
    else (p1, c)
  }

  /** A built request: its bytes are ready and it is in no one's hands. */
  function Prepare(p: Pool, key: Key, sendbuf: string, failover: bool): (Pool, RequestId)
  {
    var (p1, r) := Alloc(p);
    if r < |p1.requests| then
      (p1.(requests := p1.requests[r := p1.requests[r].(key := key, sendbuf := sendbuf, failover := failover)]), r)
    else (p1, r)
  }

  /** mmc_pool_find */
  function Home(g: Config, p: Pool, key: Key): (s: ServerId)
    requires Shaped(g, p)
    ensures s < |p.servers|
    ensures p.servers[s].status.Failed? && g.allowFailover ==>
              forall i | 0 <= i < g.maxAttempts :: p.servers[g.probe(key, i)].status.Failed?
  {
    var d := Down(p);
    Find(g, d, key)
  }

  ghost predicate FreeInRange(p: Pool) { forall x :: x in p.free ==> x < |p.requests| }

  /** Between calls. */
  ghost predicate Reached(g: Config, p: Pool) { Settled(g, p) && FreeInRange(p) }

  /** Taking a request out of the free list, or adding one, and filling it in. */
  lemma TakeOk(g: Config, p: Pool, p': Pool, r: RequestId)
    requires Settled(g, p) && FreeInRange(p)
    requires p'.servers == p.servers && p'.sending == p.sending && p'.reading == p.reading && p'.log == p.log
    requires (p.free == [] && p'.free == [] && r == |p.requests| && |p'.requests| == r + 1)
          || (p.free != [] && p'.free == p.free[1..] && r == p.free[0] && |p'.requests| == |p.requests|)
    requires forall x :: 0 <= x < |p.requests| && x != r ==> p'.requests[x] == p.requests[x]
    requires r < |p'.requests| && |p'.requests[r].sendbuf| > 0
    ensures Settled(g, p') && FreeInRange(p') && !Tracked(p', r)
    ensures forall x :: Tracked(p', x) <==> Tracked(p, x) && x != r
  {
    assert forall t, x :: On(p', t, x) <==> On(p, t, x);
    forall t: ServerId ensures !On(p, t, r) {
      if On(p, t, r) { OnInRange(g, p, t, r); }
    }
    FreeTail(p.free, p'.free, r);
    forall s | 0 <= s < |p'.servers| ensures ServerOk(p'.requests, s, p'.servers[s]) {
      assert ServerOk(p.requests, s, p.servers[s]);
      forall x | x in ReadLine(p.servers[s]) ensures x < |p.requests| && p'.requests[x] == p.requests[x] {
        assert On(p, s, x);
      }
      ServerOkFrame(p.requests, p'.requests, s, p.servers[s]);
    }
  }

  lemma OnInRange(g: Config, p: Pool, s: ServerId, r: RequestId)
    requires Settled(g, p) && On(p, s, r)
    ensures r < |p.requests| && r !in p.free
  {
    assert ServerOk(p.requests, s, p.servers[s]);
  }

  lemma FreeTail(a: seq<RequestId>, b: seq<RequestId>, r: RequestId)
    requires NoDuplicates(a) && (a == [] ==> b == []) && (a != [] ==> b == a[1..] && r == a[0])
    ensures NoDuplicates(b) && forall x :: x in b ==> x in a
    ensures a != [] ==> r !in b && forall x :: x in a && x != r ==> x in b
  {
    if a != [] { assert a == [a[0]] + a[1..]; }
  }

  lemma PrepareOk(g: Config, p: Pool, key: Key, sendbuf: string, failover: bool)
    requires Settled(g, p) && FreeInRange(p) && sendbuf != ""
    ensures var (p', r) := Prepare(p, key, sendbuf, failover);
            && Settled(g, p') && FreeInRange(p') && r < |p'.requests| && !Tracked(p', r)
            && p'.requests[r].sendbuf == sendbuf && p'.requests[r].key == key && p'.servers == p.servers
            && p'.requests[r].idx == 0 && p'.requests[r].failover == failover
            && p'.requests[r].failedServers == [] && p'.requests[r].failedIndex == 0
            && (forall x :: Tracked(p', x) <==> Tracked(p, x) && x != r)
  {
    var (p', r) := Prepare(p, key, sendbuf, failover);
    assert p.free != [] ==> p.free[0] in p.free;
    TakeOk(g, p, p', r);
  }

  /** A copy carries the original's key and bytes unless the original itself is what the free list hands out, as it
      does when the first schedule failed and released it onto an empty list. */
  lemma CloneExact(p: Pool, r: RequestId)
    requires FreeInRange(p) && r < |p.requests| && p.requests[r].sendbuf != ""
    ensures var (p', c) := Clone(p, r);
            && c < |p'.requests|
            && (p'.requests[c].sendbuf == p.requests[r].sendbuf <==> !(p.free != [] && p.free[0] == r))
            && (c != r ==> p'.requests[c].key == p.requests[r].key && p'.requests[r] == p.requests[r])
            && (c == r <==> p.free != [] && p.free[0] == r)
  {
    assert p.free != [] ==> p.free[0] in p.free;
  }

  lemma CloneOk(g: Config, p: Pool, r: RequestId)
    requires Reached(g, p) && r < |p.requests| && p.requests[r].sendbuf != "" && !(p.free != [] && p.free[0] == r)
    ensures var (p', c) := Clone(p, r);
            && Reached(g, p') && c < |p'.requests| && c != r && !Tracked(p', c)
            && p'.requests[c].sendbuf == p.requests[r].sendbuf && p'.requests[c].key == p.requests[r].key
            && !p'.requests[c].failover && p'.requests[c].failedServers == [] && p'.requests[c].failedIndex == 0
            && p'.servers == p.servers && |p.requests| <= |p'.requests|
            && (forall x :: 0 <= x < |p.requests| && x != c ==> p'.requests[x] == p.requests[x])
            && p'.free == (if p.free == [] then [] else p.free[1..])
            && (forall x :: Tracked(p', x) <==> Tracked(p, x) && x != c)
  {
    var (p', c) := Clone(p, r);
    CloneExact(p, r);
    assert p.free != [] ==> p.free[0] in p.free;
    TakeOk(g, p, p', c);
  }

  // ---------------------------------------------------------------------------------------------------------
  // Redundant requests

  /** One more copy, unless the server is down. */
  function CopyOne(g: Config, up: set<ServerId>, p: Pool, r: RequestId, s: ServerId): (p': Pool)
    requires Shaped(g, p) && r < |p.requests| && s < g.numServers
    ensures Shaped(g, p') && |p.requests| <= |p'.requests|
  {
    if p.servers[s].status.Failed? then p
    else
      var (p1, c) := Clone(p, r);
      CloneShaped(g, p, r);
      if c < |p1.requests| then Schedule(g, up, p1, s, c) else p1
  }

  /** Copies of a request for the servers `targets`, one after the other. */
  function ScheduleCopies(g: Config, up: set<ServerId>, p: Pool, r: RequestId, targets: seq<ServerId>): (p': Pool)
    requires Shaped(g, p) && r < |p.requests| && IdsOk(g.numServers, targets)
    ensures Shaped(g, p') && |p.requests| <= |p'.requests|
    decreases |targets|
  {
    if targets == [] then p
    else
      assert targets[0] in targets && forall t :: t in targets[1..] ==> t in targets;
      ScheduleCopies(g, up, CopyOne(g, up, p, r, targets[0]), r, targets[1..])
  }

  lemma CloneShaped(g: Config, p: Pool, r: RequestId)
    requires Shaped(g, p) && r < |p.requests|
    ensures Shaped(g, Clone(p, r).0) && |p.requests| <= |Clone(p, r).0.requests|
    ensures Clone(p, r).0.servers == p.servers
  {
    var p' := Clone(p, r).0;
    forall s | 0 <= s < |p'.servers| ensures ServerShaped(|p'.requests|, p'.servers[s]) {
      assert ServerShaped(|p.requests|, p.servers[s]);
    }
  }

  lemma StillOn(g: Config, p: Pool, p': Pool, s: ServerId, r: RequestId)
    requires Settled(g, p) && Steady(p, p') && On(p, s, r)
    ensures On(p', s, r) && Tracked(p, r)
  {
    assert ServerOk(p.requests, s, p.servers[s]);
    assert Undisturbed(p, p', s);
  }

  lemma CarriedRange(g: Config, up: set<ServerId>, p: Pool, p': Pool, ids: seq<RequestId>)
    requires Carried(g, up, p, p', ids) && FreeInRange(p)
    ensures FreeInRange(p')
  {
  }

  /** No request got lost, and those on servers stay there. */
  ghost predicate AllKept(p: Pool, p': Pool) {
    && (forall x :: Tracked(p, x) ==> Tracked(p', x))
    && (forall t, x :: On(p, t, x) ==> On(p', t, x))
  }

  /** A request with the same key and bytes is on the server. */
  ghost predicate HasCopy(p: Pool, t: ServerId, q: Request) {
    exists c: RequestId :: On(p, t, c) && c < |p.requests| && p.requests[c].key == q.key
      && p.requests[c].sendbuf == q.sendbuf
  }

  /** The pool is sound, request r has these contents, and it is not among the next n that the free list hands out. */
  ghost predicate Intact(g: Config, p: Pool, r: RequestId, q: Request, n: nat) {
    && Reached(g, p) && r < |p.requests| && p.requests[r] == q && q.sendbuf != ""
    && forall i | 0 <= i < |p.free| && i < n :: p.free[i] != r
  }

  /** How many requests the copies for `targets` take: a server that is down is passed over, and one that refuses the
      connection is down from then on. */
  function Taken(ok: set<ServerId>, down: set<ServerId>, targets: seq<ServerId>): nat
    decreases |targets|
  {
    if targets == [] then 0
    else if targets[0] in down then Taken(ok, down, targets[1..])
    else 1 + Taken(ok, if targets[0] in ok then down else down + {targets[0]}, targets[1..])
  }

  lemma SettledTidy(g: Config, up: set<ServerId>, p: Pool)
    requires Settled(g, p)
    ensures Tidy(up, p)
  {
    forall t | 0 <= t < |p.servers|
      ensures TidyServer(p.servers[t])
      ensures !Usable(up, p, t) ==> ReadLine(p.servers[t]) == [] && SendLine(p.servers[t]) == []
    {
      assert ServerOk(p.requests, t, p.servers[t]);
      SuffixIn(SendLine(p.servers[t]), ReadLine(p.servers[t]));
    }
  }

  /** Scheduling a copy, which has no failover: it is last on its server, or the server is down and it is free. */
  lemma CopyLands(g: Config, up: set<ServerId>, p: Pool, s: ServerId, c: RequestId)
    requires Shaped(g, p) && Tidy(up, p) && s < |p.servers| && c < |p.requests| && !p.requests[c].failover
    ensures var (p', ok) := (Schedule(g, up, p, s, c), Usables(up, p));
            && Landed(g, up, p, p', c, if s in ok then Lands(s, p.requests[c].failedServers, p.requests[c].failedIndex)
                      else Nowhere)
            && SameGround(up, p, p') && Down(p') == if s in ok then Down(p) else Down(p) + {s}
  {
    ScheduleLands(g, up, p, s, c);
  }

  /** One copy, for a server that is not down. */
  lemma CopyOk(g: Config, up: set<ServerId>, p: Pool, r: RequestId, s: ServerId, q: Request, n: nat)
    requires Shaped(g, p) && Intact(g, p, r, q, n) && n > 0 && s < g.numServers && !p.servers[s].status.Failed?
    ensures var (p', ok) := (CopyOne(g, up, p, r, s), Usables(up, p));
            && Intact(g, p', r, q, n - 1) && AllKept(p, p')
            && Usables(up, p') == ok && Down(p') == (if s in ok then Down(p) else Down(p) + {s})
            && (s in ok ==> HasCopy(p', s, q)) && forall t :: HasCopy(p, t, q) ==> HasCopy(p', t, q)
  {
    hide PoolOk, Shaped, Schedule, Clone, Carried, Steady, Tidy, FreeInRange, Tracked, Usables, Down, Landed, AllKept,
      On;
    CloneOk(g, p, r);
    CloneShaped(g, p, r);
    ShapedConfig(g, p);
    var (p1, c) := Clone(p, r);
    SettledTidy(g, up, p1);
    SameServers(up, p, p1);
    assert |p1.requests[c].sendbuf| > 0;
    CopyLands(g, up, p1, s, c);
    ScheduleOk(g, up, p1, s, c, {}, {});
    var p2, ok := Schedule(g, up, p1, s, c), Usables(up, p);
    CopyKept(g, up, p, p1, p2, c);
    CarriedRange(g, up, p1, p2, [c]);
    var l := if s in ok then Lands(s, p1.requests[c].failedServers, p1.requests[c].failedIndex) else Nowhere;
    CopyIntact(g, up, p, p1, p2, r, q, n, c, l);
    assert forall t, d :: On(p, t, d) ==> On(p2, t, d) by { KeptThere(p, p2); }
    CopiesStay(g, up, p, p1, p2, c, l, q);
    if s in ok { LandedOn(g, up, p1, p2, c, l); }
    assert s in ok ==> HasCopy(p2, s, q);
  }

  lemma KeptThere(p: Pool, p': Pool)
    requires AllKept(p, p')
    ensures forall t, x :: On(p, t, x) ==> On(p', t, x)
  {
    hide On, Tracked;
  }

  lemma CopiesStay(g: Config, up: set<ServerId>, p: Pool, p1: Pool, p2: Pool, c: RequestId, l: Landing, q: Request)
    requires Landed(g, up, p1, p2, c, l) && p1.servers == p.servers && !Tracked(p1, c) && |p.requests| <= |p1.requests|
    requires forall x :: 0 <= x < |p.requests| && x != c ==> p1.requests[x] == p.requests[x]
    requires forall t, x :: On(p, t, x) ==> On(p2, t, x)
    ensures forall t :: HasCopy(p, t, q) ==> HasCopy(p2, t, q)
  {
    hide Landed, Tracked, On;
    forall t | HasCopy(p, t, q) ensures HasCopy(p2, t, q) {
      var d: RequestId :| On(p, t, d) && d < |p.requests| && p.requests[d].key == q.key
        && p.requests[d].sendbuf == q.sendbuf;
      CopyOther(p, p1, t, d, c);
      LandedOthers(g, up, p1, p2, c, l, d);
    }
  }

  lemma SameServers(up: set<ServerId>, p: Pool, p1: Pool)
    requires p1.servers == p.servers
    ensures Usables(up, p1) == Usables(up, p) && Down(p1) == Down(p)
    ensures forall t, x :: On(p1, t, x) <==> On(p, t, x)
  {
  }

  lemma CopyOther(p: Pool, p1: Pool, t: ServerId, d: RequestId, c: RequestId)
    requires p1.servers == p.servers && On(p, t, d) && !Tracked(p1, c)
    ensures d != c
  {
    if d == c { assert On(p1, t, c); }
  }

  lemma LandedOn(g: Config, up: set<ServerId>, p: Pool, p': Pool, c: RequestId, l: Landing)
    requires Tidy(up, p) && Landed(g, up, p, p', c, l) && l.Lands?
    ensures On(p', l.server, c) && c < |p'.requests|
    ensures p'.requests[c].key == p.requests[c].key && p'.requests[c].sendbuf == p.requests[c].sendbuf
  {
    AtTidy(up, p, l.server);
    GrewAppended(p.servers[l.server], p'.servers[l.server], c);
  }

  lemma CopyIntact(g: Config, up: set<ServerId>, p: Pool, p1: Pool, p2: Pool, r: RequestId, q: Request, n: nat,
                   c: RequestId, l: Landing)
    requires Intact(g, p, r, q, n) && n > 0 && c != r && Reached(g, p2) && Landed(g, up, p1, p2, c, l)
    requires r < |p1.requests| && p1.requests[r] == p.requests[r]
    requires p1.free == (if p.free == [] then [] else p.free[1..])
    ensures Intact(g, p2, r, q, n - 1)
  {
    hide Marked, PoolOk, FreeInRange, CanFailOver, SameRequest;
    assert p2.free == p1.free || p2.free == p1.free + [c];
    forall i | 0 <= i < |p2.free| && i < n - 1 ensures p2.free[i] != r {
      if i < |p1.free| { assert p1.free[i] == p.free[i + 1]; }
    }
  }

  lemma CopyKept(g: Config, up: set<ServerId>, p: Pool, p1: Pool, p2: Pool, c: RequestId)
    requires Carried(g, up, p1, p2, [c]) && forall x :: Tracked(p, x) && x != c ==> Tracked(p1, x)
    requires Settled(g, p1) && Steady(p1, p2) && p1.servers == p.servers
    ensures AllKept(p, p2)
  {
    forall t, x | On(p, t, x) ensures On(p2, t, x) {
      assert On(p1, t, x);
      StillOn(g, p1, p2, t, x);
    }
    hide Tracked;
    assert c in [c];
  }

  lemma KeptOn(p: Pool, p1: Pool, p2: Pool)
    requires AllKept(p, p1) && AllKept(p1, p2)
    ensures AllKept(p, p2)
  {
    hide Tracked, On;
  }

  /** While copies are handed out the original keeps its place and contents and the pool stays sound, however the copies
      fare; and in the end each server that can be used has its copy. */
  lemma {:induction false} CopiesOk(g: Config, up: set<ServerId>, p: Pool, r: RequestId, targets: seq<ServerId>,
                                    q: Request)
    requires Shaped(g, p) && r < |p.requests| && IdsOk(g.numServers, targets)
    requires Intact(g, p, r, q, Taken(Usables(up, p), Down(p), targets))
    ensures var p' := ScheduleCopies(g, up, p, r, targets);
            && Intact(g, p', r, q, 0) && AllKept(p, p') && (forall t :: HasCopy(p, t, q) ==> HasCopy(p', t, q))
            && forall t :: t in targets && t in Usables(up, p) ==> HasCopy(p', t, q)
    decreases |targets|
  {
    hide Intact, CopyOne, AllKept, HasCopy, Usables;
    if targets == [] {
      KeptRefl(p);
    } else {
      assert targets[0] in targets && forall t :: t in targets[1..] ==> t in targets;
      assert forall t :: t in targets ==> t == targets[0] || t in targets[1..] by {
        assert targets == [targets[0]] + targets[1..];
      }
      var p1 := CopyOne(g, up, p, r, targets[0]);
      if p.servers[targets[0]].status.Failed? {
        assert p1 == p by { PassedOver(g, up, p, r, targets[0]); }
        KeptRefl(p);
        NotUsable(up, p, targets[0]);
      } else {
        CopyOk(g, up, p, r, targets[0], q, Taken(Usables(up, p), Down(p), targets));
      }
      CopiesOk(g, up, p1, r, targets[1..], q);
      KeptOn(p, p1, ScheduleCopies(g, up, p1, r, targets[1..]));
    }
  }

  lemma KeptRefl(p: Pool)
    ensures AllKept(p, p)
  {
  }

  lemma PassedOver(g: Config, up: set<ServerId>, p: Pool, r: RequestId, s: ServerId)
    requires Shaped(g, p) && r < |p.requests| && s < g.numServers && p.servers[s].status.Failed?
    ensures CopyOne(g, up, p, r, s) == p && s in Down(p)
  {
  }

  lemma NotUsable(up: set<ServerId>, p: Pool, s: ServerId)
    requires s < |p.servers| && p.servers[s].status.Failed?
    ensures s !in Usables(up, p) && s in Down(p)
  {
  }

  // ---------------------------------------------------------------------------------------------------------
  // When a copy takes the original itself

  /** Emptying what the free list hands out empties the original, if that is what it is. */
  lemma CloneTakes(g: Config, p: Pool, r: RequestId)
    requires FreeInRange(p) && r < |p.requests|
    ensures var (p1, c) := Clone(p, r);
            && FreeInRange(p1) && c < |p1.requests| && r < |p1.requests| && !p1.requests[c].failover
            && p1.free == (if p.free == [] then [] else p.free[1..])
            && (p.requests[r].sendbuf == "" || (p.free != [] && p.free[0] == r) ==> p1.requests[r].sendbuf == "")
  {
    assert p.free != [] ==> p.free[0] in p.free && forall x :: x in p.free[1..] ==> x in p.free;
  }

  lemma LandedTakes(g: Config, up: set<ServerId>, p: Pool, p': Pool, c: RequestId, l: Landing, r: RequestId)
    requires Landed(g, up, p, p', c, l) && FreeInRange(p) && r < |p.requests|
    ensures FreeInRange(p') && p.free <= p'.free && r < |p'.requests| && p'.requests[r].sendbuf == p.requests[r].sendbuf
  {
    hide Marked, Appended, CanFailOver, Usable;
  }

  /** What one copy does to byte strings and to the free list, in any pool. */
  lemma CopyTakes(g: Config, up: set<ServerId>, p: Pool, r: RequestId, s: ServerId)
    requires Shaped(g, p) && Tidy(up, p) && FreeInRange(p) && r < |p.requests| && s < g.numServers
    requires !p.servers[s].status.Failed?
    ensures var (p', ok, rest) := (CopyOne(g, up, p, r, s), Usables(up, p), if p.free == [] then [] else p.free[1..]);
            && Tidy(up, p') && FreeInRange(p') && Usables(up, p') == ok
            && Down(p') == (if s in ok then Down(p) else Down(p) + {s}) && rest <= p'.free
            && (p.requests[r].sendbuf == "" || (p.free != [] && p.free[0] == r) ==> p'.requests[r].sendbuf == "")
  {
    CloneShaped(g, p, r);
    CloneTakes(g, p, r);
    var (p1, c) := Clone(p, r);
    SameServers(up, p, p1);
    assert Tidy(up, p1);
    hide Usables, Down, Tidy, Schedule, Landed, FreeInRange, Clone;
    CopyLands(g, up, p1, s, c);
    var l := if s in Usables(up, p) then Lands(s, p1.requests[c].failedServers, p1.requests[c].failedIndex)
      else Nowhere;
    LandedTakes(g, up, p1, Schedule(g, up, p1, s, c), c, l, r);
  }

  lemma {:induction false} BlankStays(g: Config, up: set<ServerId>, p: Pool, r: RequestId, targets: seq<ServerId>)
    requires Shaped(g, p) && Tidy(up, p) && FreeInRange(p) && r < |p.requests| && IdsOk(g.numServers, targets)
    requires p.requests[r].sendbuf == ""
    ensures ScheduleCopies(g, up, p, r, targets).requests[r].sendbuf == ""
    decreases |targets|
  {
    if targets != [] {
      assert targets[0] in targets && forall t :: t in targets[1..] ==> t in targets;
      if p.servers[targets[0]].status.Failed? {
        PassedOver(g, up, p, r, targets[0]);
      } else {
        CopyTakes(g, up, p, r, targets[0]);
      }
      hide CopyOne, Tidy, FreeInRange;
      BlankStays(g, up, CopyOne(g, up, p, r, targets[0]), r, targets[1..]);
    }
  }

  lemma {:induction false} CopiesBlank(g: Config, up: set<ServerId>, p: Pool, r: RequestId, targets: seq<ServerId>,
                                       i: nat)
    requires Shaped(g, p) && Tidy(up, p) && FreeInRange(p) && r < |p.requests| && IdsOk(g.numServers, targets)
    requires i < |p.free| && p.free[i] == r && i < Taken(Usables(up, p), Down(p), targets)
    ensures ScheduleCopies(g, up, p, r, targets).requests[r].sendbuf == ""
    decreases |targets|
  {
    assert targets[0] in targets && forall t :: t in targets[1..] ==> t in targets;
    var p1 := CopyOne(g, up, p, r, targets[0]);
    if p.servers[targets[0]].status.Failed? {
      PassedOver(g, up, p, r, targets[0]);
      CopiesBlank(g, up, p, r, targets[1..], i);
    } else {
      CopyTakes(g, up, p, r, targets[0]);
      hide CopyOne, Tidy, FreeInRange, Usables;
      if i == 0 {
        BlankStays(g, up, p1, r, targets[1..]);
      } else {
        assert p1.free[i - 1] == p.free[1..][i - 1];
        CopiesBlank(g, up, p1, r, targets[1..], i - 1);
      }
    }
  }

  lemma {:induction false} ReplicasInRange(g: Config, key: Key, skip: seq<ServerId>, mmc: ServerId, index: nat,
                                           count: nat)
    requires ConfigOk(g)
    ensures IdsOk(g.numServers, Replicas(g, key, skip, mmc, index, count).0)
    decreases count
  {
    if count > 0 {
      var chosen := PushUnique(skip, mmc);
      var (next, last) := FindNext(g, key, chosen, index);
      hide PushUnique, FindNext;
      ReplicasInRange(g, key, chosen, next, last, count - 1);
    }
  }

  /** Handing out these copies leads to the pool `goal`. */
  ghost predicate Outcome(g: Config, up: set<ServerId>, p: Pool, r: RequestId, targets: seq<ServerId>, goal: Pool)
    requires Shaped(g, p) && r < |p.requests| && IdsOk(g.numServers, targets)
  {
    ScheduleCopies(g, up, p, r, targets) == goal
  }

  lemma OutcomeOf(g: Config, up: set<ServerId>, p: Pool, r: RequestId, targets: seq<ServerId>)
    requires Shaped(g, p) && r < |p.requests| && IdsOk(g.numServers, targets)
    ensures Outcome(g, up, p, r, targets, ScheduleCopies(g, up, p, r, targets))
  {
  }

  lemma OutcomeReached(g: Config, up: set<ServerId>, p: Pool, r: RequestId, key: Key, skip: seq<ServerId>,
                       mmc: ServerId, index: nat, goal: Pool)
    requires Shaped(g, p) && r < |p.requests| && IdsOk(g.numServers, Replicas(g, key, skip, mmc, index, 0).0)
    requires Outcome(g, up, p, r, Replicas(g, key, skip, mmc, index, 0).0, goal)
    ensures p == goal
  {
  }

  lemma CopiesStep(g: Config, up: set<ServerId>, p: Pool, r: RequestId, s: ServerId, rest: seq<ServerId>)
    requires Shaped(g, p) && r < |p.requests| && IdsOk(g.numServers, [s] + rest)
    ensures s < g.numServers && IdsOk(g.numServers, rest)
    ensures ScheduleCopies(g, up, p, r, [s] + rest) == ScheduleCopies(g, up, CopyOne(g, up, p, r, s), r, rest)
  {
    assert s in [s] + rest && forall t :: t in rest ==> t in [s] + rest;
    assert ([s] + rest)[0] == s && ([s] + rest)[1..] == rest;
    hide CopyOne, Shaped;
  }

  lemma ReplicasStep(g: Config, key: Key, skip: seq<ServerId>, mmc: ServerId, index: nat, count: nat)
    requires count > 0
    ensures var chosen := PushUnique(skip, mmc);
            var (next, last) := FindNext(g, key, chosen, index);
            Replicas(g, key, skip, mmc, index, count).0 == [next] + Replicas(g, key, chosen, next, last, count - 1).0
  {
    hide PushUnique, FindNext;
  }

  function Copies(g: Config, redundancy: nat): nat {
    if redundancy <= 1 || g.numServers == 0 then 0
    else if redundancy < g.numServers then redundancy - 1 else g.numServers - 1
  }

  /** mmc_pool_schedule_key */
  function ScheduleKey(g: Config, up: set<ServerId>, p: Pool, r: RequestId, key: Key, redundancy: nat): (p': Pool)
    requires Shaped(g, p) && r < |p.requests|
    ensures Shaped(g, p')
  {
    var mmc := Home(g, p, key);
    ReplicasInRange(g, key, [], mmc, 0, Copies(g, redundancy));
    ScheduleCopies(g, up, Schedule(g, up, p, mmc, r), r, Replicas(g, key, [], mmc, 0, Copies(g, redundancy)).0)
  }

  /** The request itself finds a server, by where its key belongs, the probes, and which servers can be used. */
  predicate Finds(g: Config, up: set<ServerId>, p: Pool, r: RequestId, key: Key)
    requires Shaped(g, p) && r < |p.requests|
  {
    Destination(g, Usables(up, p), p.requests[r], Home(g, p, key)).Lands?
  }

  /** How many requests the copies will take off the free list, told beforehand. */
  function CopiesTake(g: Config, up: set<ServerId>, p: Pool, r: RequestId, key: Key, redundancy: nat): nat
    requires Shaped(g, p) && r < |p.requests|
  {
    var (ok, mmc) := (Usables(up, p), Home(g, p, key));
    Taken(ok, Down(p) + Tries(g, ok, p.requests[r], mmc), Replicas(g, key, [], mmc, 0, Copies(g, redundancy)).0)
  }

  /** The copies leave the original alone: it found a server, or enough others are free before it. */
  predicate CopiesFit(g: Config, up: set<ServerId>, p: Pool, r: RequestId, key: Key, redundancy: nat)
    requires Shaped(g, p) && r < |p.requests|
  {
    Finds(g, up, p, r, key) || CopiesTake(g, up, p, r, key, redundancy) <= |p.free|
  }

  /** The state between the request's own schedule and the copies. */
  lemma FirstOk(g: Config, up: set<ServerId>, p: Pool, r: RequestId, key: Key)
    requires Reached(g, p) && r < |p.requests| && !Tracked(p, r)
    ensures var (p1, ok, mmc) := (Schedule(g, up, p, Home(g, p, key), r), Usables(up, p), Home(g, p, key));
            && Reached(g, p1) && Tracked(p1, r) && AllKept(p, p1) && Tidy(up, p1)
            && Landed(g, up, p, p1, r, Destination(g, ok, p.requests[r], mmc)) && Usables(up, p1) == ok
            && Down(p1) == Down(p) + Tries(g, ok, p.requests[r], mmc) && r !in p.free
            && (Finds(g, up, p, r, key) <==> exists home :: On(p1, home, r))
            && var l := Destination(g, ok, p.requests[r], mmc); l.Lands? ==> On(p1, l.server, r)
  {
    var mmc := Home(g, p, key);
    var p1 := Schedule(g, up, p, mmc, r);
    SettledTidy(g, up, p);
    ScheduleLands(g, up, p, mmc, r);
    ScheduleOk(g, up, p, mmc, r, {}, {});
    CarriedRange(g, up, p, p1, [r]);
    assert r in [r];
    CopyKept(g, up, p, p, p1, r);
    var l := Destination(g, Usables(up, p), p.requests[r], mmc);
    LandedSettles(g, up, p, p1, r, l);
    hide Schedule, Landed, Tidy, Usables, Destination, Home, ServersOk, Awake, Steady;
    if l.Lands? { assert On(p1, l.server, r); }
  }

  lemma CopiesAfter(g: Config, up: set<ServerId>, p: Pool, p1: Pool, r: RequestId, l: Landing, targets: seq<ServerId>)
    requires Reached(g, p1) && Tracked(p1, r) && AllKept(p, p1) && LengthsOk(p) && IdsOk(g.numServers, targets)
    requires r < |p.requests| && r !in p.free && Landed(g, up, p, p1, r, l) && (l.Lands? ==> On(p1, l.server, r))
    requires l.Lands? || Taken(Usables(up, p1), Down(p1), targets) <= |p.free|
    ensures r < |p1.requests| && Shaped(g, p1)
    ensures var p' := ScheduleCopies(g, up, p1, r, targets);
            && Reached(g, p') && AllKept(p, p') && AllKept(p1, p') && Tracked(p', r)
            && p'.requests[r] == p1.requests[r]
            && forall t :: t in targets && t in Usables(up, p1) ==> HasCopy(p', t, p.requests[r])
  {
    FirstIntact(g, up, p, p1, r, l, Taken(Usables(up, p1), Down(p1), targets));
    assert r < |p1.requests| && Shaped(g, p1);
    hide PoolOk, Tracked, FreeInRange, ScheduleCopies, On, Taken, Landed, Usables, Down;
    CopiesOk(g, up, p1, r, targets, p1.requests[r]);
    KeptOn(p, p1, ScheduleCopies(g, up, p1, r, targets));
    SameCopies(ScheduleCopies(g, up, p1, r, targets), p.requests[r], p1.requests[r]);
  }

  /** After a redundant request was scheduled the pool is sound, no request is lost, the request is where its own
      schedule put it, and each of the servers chosen for its copies that can be used has one with its key and bytes. */
  lemma ScheduleKeyOk(g: Config, up: set<ServerId>, p: Pool, r: RequestId, key: Key, redundancy: nat)
    requires Reached(g, p) && r < |p.requests| && !Tracked(p, r) && CopiesFit(g, up, p, r, key, redundancy)
    ensures var (p1, p') := (Schedule(g, up, p, Home(g, p, key), r), ScheduleKey(g, up, p, r, key, redundancy));
            && Reached(g, p') && AllKept(p, p') && AllKept(p1, p') && Tracked(p', r)
            && p'.requests[r] == p1.requests[r]
            && forall t :: t in Chosen(g, p, key, redundancy)[1..] && t in Usables(up, p) ==>
                 HasCopy(p', t, p.requests[r])
  {
    FirstOk(g, up, p, r, key);
    assert Shaped(g, p) && LengthsOk(p);
    hide PoolOk, Settled, Reached, Shaped, Schedule, Tracked, ScheduleCopies, Replicas, Home, On, Taken, Landed,
      Usables,
         Down, Tries, Place, AllKept, HasCopy, LengthsOk;
    var mmc := Home(g, p, key);
    var (p1, targets) := (Schedule(g, up, p, mmc, r), Replicas(g, key, [], mmc, 0, Copies(g, redundancy)).0);
    var l := Destination(g, Usables(up, p), p.requests[r], mmc);
    ShapedConfig(g, p);
    ReplicasInRange(g, key, [], mmc, 0, Copies(g, redundancy));
    assert Chosen(g, p, key, redundancy)[1..] == targets;
    CopiesAfter(g, up, p, p1, r, l, targets);
  }

  lemma NoCopies(g: Config, up: set<ServerId>, p: Pool, r: RequestId, key: Key, redundancy: nat)
    requires Shaped(g, p) && r < |p.requests| && redundancy <= 1
    ensures ScheduleKey(g, up, p, r, key, redundancy) == Schedule(g, up, p, Home(g, p, key), r)
    ensures CopiesFit(g, up, p, r, key, redundancy)
  {
    hide Schedule, Home, Shaped;
  }

  /** Otherwise one of the copies is the request itself, which has lost its bytes. */
  lemma ScheduleKeyBlank(g: Config, up: set<ServerId>, p: Pool, r: RequestId, key: Key, redundancy: nat)
    requires Reached(g, p) && r < |p.requests| && !Tracked(p, r) && !CopiesFit(g, up, p, r, key, redundancy)
    ensures r < |ScheduleKey(g, up, p, r, key, redundancy).requests|
    ensures ScheduleKey(g, up, p, r, key, redundancy).requests[r].sendbuf == ""
  {
    FirstOk(g, up, p, r, key);
    var mmc := Home(g, p, key);
    var (p1, targets) := (Schedule(g, up, p, mmc, r), Replicas(g, key, [], mmc, 0, Copies(g, redundancy)).0);
    ReplicasInRange(g, key, [], mmc, 0, Copies(g, redundancy));
    hide Schedule, PoolOk, Tracked, FreeInRange, ScheduleCopies, Replicas, Home, On, Taken, Usables, Tidy, Walk;
    assert p1.free == p.free + [r];
    CopiesBlank(g, up, p1, r, targets, |p.free|);
  }

  lemma SameCopies(p: Pool, q: Request, q': Request)
    requires q'.key == q.key && q'.sendbuf == q.sendbuf
    ensures forall t :: HasCopy(p, t, q') <==> HasCopy(p, t, q)
  {
  }

  lemma FirstIntact(g: Config, up: set<ServerId>, p: Pool, p1: Pool, r: RequestId, l: Landing, n: nat)
    requires Reached(g, p1) && r < |p.requests| && r !in p.free && Landed(g, up, p, p1, r, l)
    requires LengthsOk(p) && (l.Lands? ==> On(p1, l.server, r))
    requires l.Lands? || n <= |p.free|
    ensures Intact(g, p1, r, p1.requests[r], n)
    ensures p1.requests[r].key == p.requests[r].key && p1.requests[r].sendbuf == p.requests[r].sendbuf
  {
  }

  /** The servers of a request and its copies. */
  function Chosen(g: Config, p: Pool, key: Key, redundancy: nat): (all: seq<ServerId>)
    requires Shaped(g, p)
    ensures |all| == if redundancy <= 1 || g.numServers <= 1 then 1
                     else if redundancy < g.numServers then redundancy else g.numServers
  {
    var mmc := Home(g, p, key);
    [mmc] + Replicas(g, key, [], mmc, 0, Copies(g, redundancy)).0
  }

  /** As many different servers as asked for and as there are, if and only if the probes name that many. */
  lemma KeyServersDistinct(g: Config, p: Pool, key: Key, redundancy: nat)
    requires Shaped(g, p)
    ensures NoDuplicates(Chosen(g, p, key, redundancy))
            <==> Enough(g, key, {Home(g, p, key)}, 0, |Chosen(g, p, key, redundancy)| - 1)
  {
    var mmc := Home(g, p, key);
    hide Home, NoDuplicates, Enough;
    ReplicasDistinct(g, key, mmc, Copies(g, redundancy));
  }

  // ---------------------------------------------------------------------------------------------------------
  // The free list names requests of the pool, come what may

  lemma {:induction false} FreeAfterSchedule(g: Config, up: set<ServerId>, p: Pool, s: ServerId, r: RequestId)
    requires Shaped(g, p) && s < |p.servers| && r < |p.requests| && FreeInRange(p)
    ensures FreeInRange(Schedule(g, up, p, s, r))
    decreases Budget(g, p.requests), 3, 0
  {
    if p.servers[s].status.Failed? {
      FreeAfterFailover(g, up, p, s, r);
    } else if NeedsConnect(p, s) && s !in up {
      BudgetUpdate(g, p.requests, r, p.requests[r].(idx := 0));
      FreeAfterDeactivate(g, up, Rewind(p, r), s);
      var p1 := Deactivate(g, up, Rewind(p, r), s);
      var p2 := WithServer(p1, s, p1.servers[s].(sendreq := None));
      SlotCleared(g, p1, s);
      FreeAfterFailover(g, up, p2, s, r);
    }
  }

  lemma {:induction false} FreeAfterFailover(g: Config, up: set<ServerId>, p: Pool, s: ServerId, r: RequestId)
    requires Shaped(g, p) && s < |p.servers| && r < |p.requests| && FreeInRange(p)
    ensures FreeInRange(Failover(g, up, p, s, r))
    decreases Budget(g, p.requests), 0, 0
  {
    var q := p.requests[r];
    if CanFailOver(g, q) {
      var (next, skip, index) := NextServer(g, Down(p), q.key, s, q.failedServers, q.failedIndex);
      var q' := q.(failedServers := skip, failedIndex := index);
      BudgetUpdate(g, p.requests, r, q');
      FreeAfterSchedule(g, up, WithRequest(p, r, q'), next, r);
    }
  }

  lemma {:induction false} FreeAfterDeactivate(g: Config, up: set<ServerId>, p: Pool, s: ServerId)
    requires Shaped(g, p) && s < |p.servers| && FreeInRange(p)
    ensures FreeInRange(Deactivate(g, up, p, s))
    decreases Budget(g, p.requests), 2, 0
  {
    EvictedInRange(g, p, s);
    FreeAfterAll(g, up, Clear(p, s), s, Evicted(p.servers[s]));
  }

  lemma {:induction false} FreeAfterAll(g: Config, up: set<ServerId>, p: Pool, s: ServerId, ids: seq<RequestId>)
    requires Shaped(g, p) && s < |p.servers| && IdsOk(|p.requests|, ids) && FreeInRange(p)
    ensures FreeInRange(FailoverAll(g, up, p, s, ids))
    decreases Budget(g, p.requests), 1, |ids|
  {
    if ids != [] {
      assert ids[0] in ids && forall r :: r in ids[1..] ==> r in ids;
      FreeAfterFailover(g, up, p, s, ids[0]);
      FreeAfterAll(g, up, Failover(g, up, p, s, ids[0]), s, ids[1..]);
    }
  }

  // ---------------------------------------------------------------------------------------------------------
  // Histories

  /** A caller builds a request and schedules it by its key, or lets the pool run a round. */
  datatype Call = Submit(key: Key, sendbuf: string, redundancy: nat, up: set<ServerId>) | Turn(round: Round)

  function SubmitTo(g: Config, c: Call, p: Pool): (p': Pool)
    requires c.Submit? && Shaped(g, p)
  {
    var (p1, r) := Prepare(p, c.key, c.sendbuf, true);
    if r < |p1.requests| then
      PrepareShaped(g, p, c.key, c.sendbuf);
      ScheduleKey(g, c.up, p1, r, c.key, c.redundancy)
    else p1
  }

  lemma PrepareShaped(g: Config, p: Pool, key: Key, sendbuf: string)
    requires Shaped(g, p)
    ensures Shaped(g, Prepare(p, key, sendbuf, true).0)
  {
    var p' := Prepare(p, key, sendbuf, true).0;
    forall s | 0 <= s < |p'.servers| ensures ServerShaped(|p'.requests|, p'.servers[s]) {
      assert ServerShaped(|p.requests|, p.servers[s]);
    }
  }

  /** What has to hold before the call for its copies to leave the request alone. */
  predicate Fits(g: Config, c: Call, p: Pool)
    requires c.Submit? && Shaped(g, p)
  {
    var (p1, r) := Prepare(p, c.key, c.sendbuf, true);
    PrepareShaped(g, p, c.key, c.sendbuf);
    r < |p1.requests| && CopiesFit(g, c.up, p1, r, c.key, c.redundancy)
  }

  /** The request is on a server or was given up, and no other request is lost. */
  lemma SubmitOk(g: Config, c: Call, p: Pool)
    requires c.Submit? && c.sendbuf != "" && Reached(g, p) && Fits(g, c, p)
    ensures Reached(g, SubmitTo(g, c, p))
    ensures var r := Prepare(p, c.key, c.sendbuf, true).1;
            Tracked(SubmitTo(g, c, p), r) && forall x :: Tracked(p, x) ==> Tracked(SubmitTo(g, c, p), x)
  {
    PrepareOk(g, p, c.key, c.sendbuf, true);
    PrepareShaped(g, p, c.key, c.sendbuf);
    var (p1, r) := Prepare(p, c.key, c.sendbuf, true);
    hide Prepare, ScheduleKey, CopiesFit, Tracked, On, PoolOk, FreeInRange, Schedule, Home, HasCopy, Chosen;
    ScheduleKeyOk(g, c.up, p1, r, c.key, c.redundancy);
  }

  /** Exactly when a submit leaves the pool in order. */
  lemma SubmitExactly(g: Config, c: Call, p: Pool)
    requires c.Submit? && c.sendbuf != "" && Reached(g, p)
    ensures Reached(g, SubmitTo(g, c, p)) <==> Fits(g, c, p)
  {
    if Fits(g, c, p) {
      SubmitOk(g, c, p);
    } else {
      PrepareOk(g, p, c.key, c.sendbuf, true);
      PrepareShaped(g, p, c.key, c.sendbuf);
      var (p1, r) := Prepare(p, c.key, c.sendbuf, true);
      hide Prepare, ScheduleKey, CopiesFit, Tracked, On, FreeInRange, Home, ServersOk, Exclusive, Awake, Attributed;
      ScheduleKeyBlank(g, c.up, p1, r, c.key, c.redundancy);
      assert !LengthsOk(SubmitTo(g, c, p));
    }
  }

  lemma TrackedRange(g: Config, p: Pool, x: RequestId)
    requires Reached(g, p) && Tracked(p, x)
    ensures x < |p.requests|
  {
    if x !in p.free {
      var s: ServerId :| On(p, s, x);
      assert ServerOk(p.requests, s, p.servers[s]);
    }
  }

  lemma TurnOk(g: Config, e: Round, p: Pool)
    requires Reached(g, p) && RoundKept(g, e, p)
    ensures Reached(g, Select(g, e, p))
  {
    SelectOk(g, e, p);
    var p' := Select(g, e, p);
    hide Select;
    forall x | x in p'.free ensures x < |p'.requests| {
      assert Tracked(p', x);
      TrackedRange(g, p, x);
    }
  }

  /** The states a pool can be in, by any sequence of submits that fit and rounds whose replies complete well. */
  ghost predicate Reachable(g: Config, p: Pool, calls: seq<Call>)
    decreases |calls|
  {
    if calls == [] then p == NewPool(g)
    else
      var before, call := calls[..|calls| - 1], calls[|calls| - 1];
      exists q :: Reachable(g, q, before) && StepTo(g, q, call, p)
  }

  ghost predicate StepTo(g: Config, q: Pool, c: Call, p: Pool) {
    && Shaped(g, q)
    && match c
       case Submit(_, sendbuf, _, _) => sendbuf != "" && Fits(g, c, q) && p == SubmitTo(g, c, q)
       case Turn(e) =>
         RoundKept(g, e, q) && p == Select(g, e, q)
  }

  /** Every reachable pool is sound between rounds: each server's pipeline is aligned, each stream carries what is
      about to be read, each filled slot is listed, each request is in one place, each reply went to its request. */
  lemma {:induction false} ReachableReached(g: Config, p: Pool, calls: seq<Call>)
    requires ConfigOk(g) && Reachable(g, p, calls)
    ensures Reached(g, p)
    decreases |calls|
  {
    if calls == [] {
      NewPoolSettled(g);
    } else {
      var c := calls[|calls| - 1];
      var q: Pool :| Reachable(g, q, calls[..|calls| - 1]) && StepTo(g, q, c, p);
      ReachableReached(g, q, calls[..|calls| - 1]);
      match c
      case Submit(_, _, _, _) => SubmitOk(g, c, q);
      case Turn(e) => TurnOk(g, e, q);
    }
  }
}
