/** A retry that finds its server refusing the next connection (mmc_pool_slot_send inside mmc_select_retry): the server
    is deactivated first, so that the next request, and sometimes the retried one, are failed over twice. */
module PoolRefused {
  import opened Basics
  import opened Wrappers
  import opened Sequences
  import opened Routing
  import opened PoolModel
  import opened PoolInvariant
  import opened PoolRound
  import opened PoolLanding
  import opened PoolReconnect
  import opened PoolRetry

  /** Failover from server s takes the request to server t. */
  predicate GoesTo(g: Config, ok: set<ServerId>, q: Request, s: ServerId, t: ServerId) {
    var l := Place(g, ok, q, s);
    l.Lands? && l.server == t
  }

  /** What comes before `x`. */
  function Before(ids: seq<RequestId>, x: RequestId): (r: seq<RequestId>)
    ensures |r| <= |ids| && r == ids[..|r|] && x !in r
    ensures x in ids ==> |r| < |ids| && ids[|r|] == x
  {
    if ids == [] || ids[0] == x then []
    else
      assert ids == [ids[0]] + ids[1..];
      [ids[0]] + Before(ids[1..], x)
  }

  /** Request x, failed over twice, is where it was after the first time: it found no server at all, or the same one
      again, on which it is not the first in line. `before` is failed over before it. */
  ghost predicate SameEnd(g: Config, ok: set<ServerId>, p: Pool, s: ServerId, before: seq<RequestId>, x: RequestId) {
    && x < |p.requests|
    && match Place(g, ok, p.requests[x], s)
       case Nowhere => true
       case Lands(t, skip, index) =>
         GoesOn(g, ok, p.requests[x].key, s, skip, index, t) && Filled(g, ok, p, s, before, t)
  }

  /** The send slot of server t is filled by then. */
  ghost predicate Filled(g: Config, ok: set<ServerId>, p: Pool, s: ServerId, before: seq<RequestId>, t: ServerId) {
    t < |p.servers|
    && (p.servers[t].sendreq.Some? || exists y :: y in before && y < |p.requests| && GoesTo(g, ok, p.requests[y], s, t))
  }

  predicate GoesOn(g: Config, ok: set<ServerId>, key: Key, s: ServerId, skip: seq<ServerId>, index: nat, t: ServerId) {
    var l := Walk(g, ok, key, s, skip, index);
    l.Lands? && l.server == t
  }

  // ---------------------------------------------------------------------------------------------------------
  // A list of failovers, looked at in the middle

  lemma {:induction false} AllOf(g: Config, up: set<ServerId>, p: Pool, s: ServerId, a: seq<RequestId>,
                                 b: seq<RequestId>)
    requires Shaped(g, p) && s < |p.servers| && IdsOk(|p.requests|, a) && IdsOk(|p.requests|, b)
    ensures IdsOk(|p.requests|, a + b)
    ensures FailoverAll(g, up, p, s, a + b) == FailoverAll(g, up, FailoverAll(g, up, p, s, a), s, b)
    decreases |a|
  {
    if a == [] {
      assert a + b == b;
    } else {
      assert a[0] in a && forall x :: x in a[1..] ==> x in a;
      assert (a + b)[0] == a[0] && (a + b)[1..] == a[1..] + b;
      hide Failover, Shaped;
      assert |Failover(g, up, p, s, a[0]).servers| == |p.servers| by { SameSize(g, p, Failover(g, up, p, s, a[0])); }
      AllOf(g, up, Failover(g, up, p, s, a[0]), s, a[1..], b);
    }
  }

  lemma LandedSlot(g: Config, up: set<ServerId>, p: Pool, p': Pool, x: RequestId, l: Landing, t: ServerId)
    requires Landed(g, up, p, p', x, l) && t < |p.servers| && Usable(up, p, t)
    ensures t < |p'.servers| && (p'.servers[t].sendreq.Some?
                                 <==> p.servers[t].sendreq.Some? || (l.Lands? && l.server == t))
  {
  }

  /** A send slot is filled afterwards if it was before, or if one of the requests went there. */
  lemma {:induction false} SlotAfter(g: Config, up: set<ServerId>, p: Pool, s: ServerId, ids: seq<RequestId>,
                                     t: ServerId)
    requires Shaped(g, p) && Tidy(up, p) && s < |p.servers| && t < |p.servers| && Usable(up, p, t)
    requires IdsOk(|p.requests|, ids) && NoDuplicates(ids)
    ensures t < |FailoverAll(g, up, p, s, ids).servers|
    ensures FailoverAll(g, up, p, s, ids).servers[t].sendreq.Some? <==> Filled(g, Usables(up, p), p, s, ids, t)
    decreases |ids|
  {
    if ids != [] {
      assert ids[0] in ids && forall x :: x in ids[1..] ==> x in ids;
      assert ids[0] !in ids[1..] && NoDuplicates(ids[1..]);
      hide Failover, Landed, Tidy, Place, NoDuplicates, Shaped, Usable, Filled, GoesTo;
      var (p1, l) := (Failover(g, up, p, s, ids[0]), Place(g, Usables(up, p), p.requests[ids[0]], s));
      FailoverLands(g, up, p, s, ids[0]);
      LandedSlot(g, up, p, p1, ids[0], l, t);
      assert GoesTo(g, Usables(up, p), p.requests[ids[0]], s, t) <==> l.Lands? && l.server == t by {
        GoesMeans(g, Usables(up, p), p.requests[ids[0]], s, t);
      }
      LandedRest(g, up, p, p1, ids[0], l);
      assert t in Usables(up, p) && t in Usables(up, p1);
      hide Usables;
      FilledStep(g, Usables(up, p), p, p1, s, ids, t);
      SlotAfter(g, up, p1, s, ids[1..], t);
    }
  }

  lemma GoesMeans(g: Config, ok: set<ServerId>, q: Request, s: ServerId, t: ServerId)
    ensures var l := Place(g, ok, q, s); GoesTo(g, ok, q, s, t) <==> l.Lands? && l.server == t
  {
    hide Place;
  }

  lemma FilledStep(g: Config, ok: set<ServerId>, p: Pool, p1: Pool, s: ServerId, ids: seq<RequestId>, t: ServerId)
    requires ids != [] && IdsOk(|p.requests|, ids) && ids[0] < |p.requests| && t < |p.servers| == |p1.servers|
    requires |p1.requests| == |p.requests| && ids[0] !in ids[1..] && IdsOk(|p.requests|, ids[1..])
    requires forall y :: 0 <= y < |p.requests| && y != ids[0] ==> p1.requests[y] == p.requests[y]
    requires p1.servers[t].sendreq.Some? <==> p.servers[t].sendreq.Some? || GoesTo(g, ok, p.requests[ids[0]], s, t)
    ensures Filled(g, ok, p1, s, ids[1..], t) <==> Filled(g, ok, p, s, ids, t)
  {
    assert forall y :: y in ids <==> y == ids[0] || y in ids[1..] by { assert ids == [ids[0]] + ids[1..]; }
    hide GoesTo;
  }

  lemma LandedRest(g: Config, up: set<ServerId>, p: Pool, p': Pool, x: RequestId, l: Landing)
    requires Landed(g, up, p, p', x, l)
    ensures |p'.requests| == |p.requests|
    ensures forall y :: 0 <= y < |p.requests| && y != x ==> p'.requests[y] == p.requests[y]
  {
  }

  // ---------------------------------------------------------------------------------------------------------
  // A request in two places

  /** On a server and free, on two servers, or on one server twice. */
  ghost predicate Twice(p: Pool, x: RequestId) {
    || (exists t :: On(p, t, x) && x in p.free)
    || (exists t, t' :: On(p, t, x) && On(p, t', x) && t != t')
    || (exists t: ServerId :: t < |p.servers| && p.servers[t].sendreq == Some(x) && x in p.servers[t].sendqueue)
  }

  lemma TwiceNotAligned(g: Config, p: Pool, x: RequestId)
    requires Twice(p, x)
    ensures !AlignOk(g, p)
  {
    if AlignOk(g, p) {
      forall t: ServerId | t < |p.servers| && p.servers[t].sendreq == Some(x) ensures x !in p.servers[t].sendqueue {
        SendsOnce(p.servers[t], x);
      }
      hide LinesAligned, Shaped, On;
      assert false;
    }
  }

  lemma SendsOnce(v: Server, x: RequestId)
    requires LinesAligned(v) && v.sendreq == Some(x)
    ensures x !in v.sendqueue
  {
    SuffixUnique(SendLine(v), ReadLine(v));
    forall i | 0 <= i < |v.sendqueue| ensures v.sendqueue[i] != x {
      assert SendLine(v)[0] == x && SendLine(v)[i + 1] == v.sendqueue[i];
    }
  }

  /** No later failover of other requests, or of this one, puts that right. */
  lemma TwiceStays(up: set<ServerId>, p: Pool, p': Pool, ids: seq<RequestId>, x: RequestId)
    requires Tidy(up, p) && Settling(up, p, p', ids) && Twice(p, x)
    ensures Twice(p', x)
  {
    forall t | On(p, t, x) ensures On(p', t, x) { OnSettles(up, p, p', ids, t, x); }
    if t: ServerId :| t < |p.servers| && p.servers[t].sendreq == Some(x) && x in p.servers[t].sendqueue {
      AtTidy(up, p, t);
      assert Usable(up, p, t) && Grew(p.servers[t], p'.servers[t]);
    }
  }

  // ---------------------------------------------------------------------------------------------------------
  // The second failover

  /** Request x was failed over from `p` to `p1`, other requests from there to `p2`, and x once more to `p3`. */
  ghost predicate Again(g: Config, up: set<ServerId>, s: ServerId, x: RequestId, p: Pool, p1: Pool, p2: Pool, p3: Pool,
                        mids: seq<RequestId>) {
    var ok := Usables(up, p);
    && x < |p.requests| == |p1.requests| == |p2.requests| && x !in mids && Tidy(up, p) && SameGround(up, p, p1)
    && Landed(g, up, p, p1, x, Place(g, ok, p.requests[x], s))
    && Settling(up, p1, p2, mids)
    && Landed(g, up, p2, p3, x, Place(g, ok, p2.requests[x], s)) && SameGround(up, p2, p3)
  }

  /** The second failover did nothing but look. */
  ghost predicate Still(up: set<ServerId>, p: Pool, p': Pool) {
    && Marked(up, p, p') && p'.free == p.free
    && forall t :: 0 <= t < |p.servers| && Usable(up, p, t) ==> p'.servers[t] == p.servers[t]
  }

  /** The first one says where the second one starts. */
  lemma AgainFrom(g: Config, up: set<ServerId>, s: ServerId, x: RequestId, p: Pool, p1: Pool, p2: Pool, p3: Pool,
                  mids: seq<RequestId>)
    requires Again(g, up, s, x, p, p1, p2, p3, mids)
    ensures var ok := Usables(up, p);
            var (l, again) := (Place(g, ok, p.requests[x], s), Place(g, ok, p2.requests[x], s));
            && again == (if l.Lands? then Walk(g, ok, p.requests[x].key, s, l.skip, l.index) else Nowhere)
            && Settling(up, p2, p3, [x])
            && (l.Nowhere? ==> x in p2.free)
            && (l.Lands? ==> On(p2, l.server, x) && On(p3, l.server, x))
  {
    hide Tidy, Usable, Grew;
    var ok := Usables(up, p);
    var l := Place(g, ok, p.requests[x], s);
    WalkOn(g, up, ok, p, p1, x, l, s);
    LandedSettles(g, up, p, p1, x, l);
    LandedSettles(g, up, p2, p3, x, Place(g, ok, p2.requests[x], s));
    hide Landed, Place, Walk;
    if l.Lands? {
      OnSettles(up, p1, p2, mids, l.server, x);
      OnSettles(up, p2, p3, [x], l.server, x);
    }
  }

  /** On the same server: it is twice in the queues if it has the send slot, and otherwise nothing changes. */
  lemma SameServer(g: Config, v: Server, v1: Server, v2: Server, v3: Server, x: RequestId)
    requires TidyServer(v) && Appended(v, v1, x) && Grew(v1, v2) && Appended(v2, v3, x)
    requires LinesAligned(v) && LinesAligned(v2)
    ensures v.sendreq.None? ==> v3.sendreq == Some(x) && x in v3.sendqueue
    ensures v.sendreq.Some? ==> v3 == v2
  {
    if v.sendreq.Some? { assert |SendLine(v)| > 0 && |ReadLine(v)| > 0; }
  }

  lemma LandedThere(g: Config, up: set<ServerId>, p: Pool, p': Pool, x: RequestId, l: Landing)
    requires Landed(g, up, p, p', x, l) && l.Lands?
    ensures l.server < |p.servers| == |p'.servers| && Usable(up, p, l.server)
    ensures Appended(p.servers[l.server], p'.servers[l.server], x)
  {
  }

  /** Nothing changed: it is released again, or the server it went to is the same as before. */
  lemma LandedStill(g: Config, up: set<ServerId>, p: Pool, p': Pool, x: RequestId, l: Landing)
    requires Landed(g, up, p, p', x, l)
    requires l.Nowhere? ==> x in p.free
    requires l.Lands? && l.server < |p.servers| == |p'.servers| ==> p'.servers[l.server] == p.servers[l.server]
    ensures Still(up, p, p')
  {
    hide Usable, Appended, CanFailOver;
  }

  lemma AgainExact(g: Config, up: set<ServerId>, s: ServerId, x: RequestId, p: Pool, p1: Pool, p2: Pool, p3: Pool,
                   mids: seq<RequestId>)
    requires Again(g, up, s, x, p, p1, p2, p3, mids) && AlignOk(g, p) && AlignOk(g, p2)
    ensures var (ok, q) := (Usables(up, p), p.requests[x]);
            var l := Place(g, ok, q, s);
            if l.Lands? ==> GoesOn(g, ok, q.key, s, l.skip, l.index, l.server)
                            && l.server < |p.servers| && p.servers[l.server].sendreq.Some?
            then Still(up, p2, p3) else Twice(p3, x)
  {
    AgainFrom(g, up, s, x, p, p1, p2, p3, mids);
    var ok := Usables(up, p);
    var (l, again) := (Place(g, ok, p.requests[x], s), Place(g, ok, p2.requests[x], s));
    assert Tidy(up, p) && Landed(g, up, p, p1, x, l) && Landed(g, up, p2, p3, x, again) && Settling(up, p1, p2, mids);
    hide Again, Landed, Tidy, AlignOk, Place, Walk, Settling, Still, Marked, Usables, On;
    if l.Nowhere? {
      LandedStill(g, up, p2, p3, x, again);
    } else if again.Lands? && again.server == l.server {
      OnOneServer(g, up, x, p, p1, p2, p3, mids, l, again);
    } else {
      LandedTwice(g, up, p2, p3, x, again, l.server);
    }
  }

  lemma LandedTwice(g: Config, up: set<ServerId>, p: Pool, p': Pool, x: RequestId, l: Landing, t: ServerId)
    requires Landed(g, up, p, p', x, l) && On(p', t, x) && (l.Lands? ==> l.server != t)
    ensures Twice(p', x)
  {
    if l.Lands? {
      assert x in ReadLine(p'.servers[l.server]) && On(p', l.server, x);
    }
  }

  lemma OnOneServer(g: Config, up: set<ServerId>, x: RequestId, p: Pool, p1: Pool, p2: Pool, p3: Pool,
                    mids: seq<RequestId>, l: Landing, again: Landing)
    requires Tidy(up, p) && AlignOk(g, p) && AlignOk(g, p2) && SameGround(up, p, p1) && Settling(up, p1, p2, mids)
    requires Landed(g, up, p, p1, x, l) && Landed(g, up, p2, p3, x, again)
    requires l.Lands? && again.Lands? && again.server == l.server
    ensures l.server < |p.servers|
    ensures if p.servers[l.server].sendreq.Some? then Still(up, p2, p3) else Twice(p3, x)
  {
    LandedThere(g, up, p, p1, x, l);
    LandedThere(g, up, p2, p3, x, again);
    var t := l.server;
    assert t in Usables(up, p) && t in Usables(up, p1);
    AtTidy(up, p, t);
    assert LinesAligned(p.servers[t]) && LinesAligned(p2.servers[t]) && Grew(p1.servers[t], p2.servers[t]);
    SameServer(g, p.servers[t], p1.servers[t], p2.servers[t], p3.servers[t], x);
    if p.servers[t].sendreq.Some? { LandedStill(g, up, p2, p3, x, again); }
  }

  lemma StillAligned(g: Config, up: set<ServerId>, p: Pool, p': Pool)
    requires AlignOk(g, p) && Tidy(up, p) && Still(up, p, p') && Shaped(g, p')
    ensures AlignOk(g, p') && forall x :: Tracked(p', x) <==> Tracked(p, x)
  {
    forall t | 0 <= t < |p.servers|
      ensures LinesAligned(p'.servers[t]) && ReadLine(p'.servers[t]) == ReadLine(p.servers[t])
    {
      AtTidy(up, p, t);
      assert ReadLine(DownServer) == [] && SendLine(DownServer) == [];
      assert Usable(up, p, t) || p'.servers[t] == p.servers[t] || p'.servers[t] == DownServer;
      assert !Usable(up, p, t) ==> ReadLine(p.servers[t]) == [];
    }
    hide LinesAligned, ReadLine, Shaped;
    assert forall t, x :: On(p', t, x) <==> On(p, t, x) by { SameOns(p, p'); }
  }

  lemma SameOns(p: Pool, p': Pool)
    requires |p'.servers| == |p.servers|
    requires forall t :: 0 <= t < |p.servers| ==> ReadLine(p'.servers[t]) == ReadLine(p.servers[t])
    ensures forall t, x :: On(p', t, x) <==> On(p, t, x)
  {
  }

  /** In `p0` the slots are filled that were filled in `p` or that one of the requests went to. */
  ghost predicate SlotsFilled(g: Config, ok: set<ServerId>, p: Pool, p0: Pool, s: ServerId, before: seq<RequestId>) {
    |p0.servers| == |p.servers| && forall t: ServerId :: t in ok ==>
      t < |p.servers| && (p0.servers[t].sendreq.Some? <==> Filled(g, ok, p, s, before, t))
  }

  /** After the failovers of `before`, request x is as it was, and the slots are filled as told. */
  lemma Midway(g: Config, up: set<ServerId>, p: Pool, s: ServerId, before: seq<RequestId>, x: RequestId)
    requires AlignOk(g, p) && Tidy(up, p) && s < |p.servers| && IdsOk(|p.requests|, before) && NoDuplicates(before)
    requires x < |p.requests| && x !in before && forall y :: y in before ==> !Tracked(p, y)
    ensures var p0 := FailoverAll(g, up, p, s, before);
            && AlignOk(g, p0) && Shaped(g, p0) && Tidy(up, p0) && Usables(up, p0) == Usables(up, p)
            && |p0.servers| == |p.servers| && |p0.requests| == |p.requests| && p0.requests[x] == p.requests[x]
            && SlotsFilled(g, Usables(up, p), p, p0, s, before)
  {
    AllSettle(g, up, p, s, before);
    SettledAt(up, p, FailoverAll(g, up, p, s, before), before, x);
    FailoverAllAligned(g, up, p, s, before);
    hide AlignOk, Tidy, Shaped, FailoverAll, Filled, IdsOk, NoDuplicates, Tracked;
    forall t: ServerId | t in Usables(up, p) ensures t < |p.servers| && t < |FailoverAll(g, up, p, s, before).servers|
      && (FailoverAll(g, up, p, s, before).servers[t].sendreq.Some? <==> Filled(g, Usables(up, p), p, s, before, t))
    {
      SlotAfter(g, up, p, s, before, t);
    }
  }

  /** The pool just before request x has its turn in the list of failovers. */
  lemma FirstTime(g: Config, up: set<ServerId>, p: Pool, s: ServerId, ids: seq<RequestId>, x: RequestId)
      returns (p0: Pool, p1: Pool, after: seq<RequestId>)
    requires AlignOk(g, p) && Tidy(up, p) && s < |p.servers| && IdsOk(|p.requests|, ids) && NoDuplicates(ids)
             && x in ids
    requires forall y :: y in ids ==> !Tracked(p, y)
    ensures var ok := Usables(up, p);
            && AlignOk(g, p0) && Tidy(up, p0) && Usables(up, p0) == ok && |p0.servers| == |p.servers|
            && x < |p.requests| == |p0.requests| == |p1.requests| && p0.requests[x] == p.requests[x]
            && Landed(g, up, p0, p1, x, Place(g, ok, p.requests[x], s)) && SameGround(up, p0, p1)
            && Settling(up, p1, FailoverAll(g, up, p, s, ids), after) && x !in after
            && SlotsFilled(g, ok, p, p0, s, Before(ids, x))
  {
    var before := Before(ids, x);
    after := ids[|before| + 1..];
    Parted(ids, x, before, after);
    assert IdsOk(|p.requests|, before) && IdsOk(|p.requests|, after) && x < |p.requests| && Shaped(g, p);
    hide Before, Failover, FailoverAll, Landed, Tidy, Place, AlignOk, NoDuplicates, Tracked, Usables, Shaped, IdsOk,
         Settling, SlotsFilled;
    Midway(g, up, p, s, before, x);
    p0 := FailoverAll(g, up, p, s, before);
    p1 := Failover(g, up, p0, s, x);
    FailoverLands(g, up, p0, s, x);
    AllSettle(g, up, p1, s, after);
    OneThenAll(g, up, p0, s, x, after);
    assert IdsOk(|p.requests|, [x] + after) && |p0.requests| == |p.requests|;
    AllOf(g, up, p, s, before, [x] + after);
  }

  lemma SettledAt(up: set<ServerId>, p: Pool, p': Pool, ids: seq<RequestId>, x: RequestId)
    requires Settling(up, p, p', ids) && x < |p.requests| && x !in ids
    ensures Tidy(up, p') && Usables(up, p') == Usables(up, p) && |p'.servers| == |p.servers|
    ensures |p'.requests| == |p.requests| && p'.requests[x] == p.requests[x]
  {
    hide Tidy, Usables;
  }

  lemma OneThenAll(g: Config, up: set<ServerId>, p: Pool, s: ServerId, x: RequestId, after: seq<RequestId>)
    requires Shaped(g, p) && s < |p.servers| && x < |p.requests| && IdsOk(|p.requests|, after)
    ensures IdsOk(|p.requests|, [x] + after)
    ensures FailoverAll(g, up, p, s, [x] + after) == FailoverAll(g, up, Failover(g, up, p, s, x), s, after)
  {
    assert ([x] + after)[0] == x && ([x] + after)[1..] == after;
    hide Failover, Shaped;
  }

  lemma Parted(ids: seq<RequestId>, x: RequestId, before: seq<RequestId>, after: seq<RequestId>)
    requires NoDuplicates(ids) && x in ids && before == Before(ids, x) && after == ids[|before| + 1..]
    ensures ids == before + ([x] + after) && x !in after && NoDuplicates(before)
    ensures forall y :: y in before || y in after ==> y in ids
  {
    hide Before;
    var k := |before|;
    assert ids[k..][0] == x && ids[k..][1..] == after;
    forall i | 0 <= i < |after| ensures after[i] != x { assert ids[k + 1 + i] == after[i]; }
  }

  /** The whole of a second failover, told from the pool before the first. */
  lemma SecondTime(g: Config, up: set<ServerId>, p: Pool, s: ServerId, ids: seq<RequestId>, x: RequestId,
                   mids: seq<RequestId>, now: Pool, later: Pool)
    requires AlignOk(g, p) && Tidy(up, p) && s < |p.servers| && IdsOk(|p.requests|, ids) && NoDuplicates(ids)
             && x in ids
    requires forall y :: y in ids ==> !Tracked(p, y)
    requires Settling(up, FailoverAll(g, up, p, s, ids), now, mids) && x !in mids && AlignOk(g, now)
    requires x < |now.requests| && Landed(g, up, now, later, x, Place(g, Usables(up, p), now.requests[x], s))
    requires SameGround(up, now, later)
    ensures if SameEnd(g, Usables(up, p), p, s, Before(ids, x), x) then Still(up, now, later) else Twice(later, x)
  {
    var p0, p1, after := FirstTime(g, up, p, s, ids, x);
    hide Before, Landed, Tidy, Place, AlignOk, NoDuplicates, Tracked, FailoverAll, Usables, Twice, Still, Filled,
      GoesOn, IdsOk;
    SettlingTrans(up, p1, FailoverAll(g, up, p, s, ids), now, after, mids);
    assert |now.requests| == |p1.requests|;
    hide Settling;
    assert Again(g, up, s, x, p0, p1, now, later, after + mids);
    AgainExact(g, up, s, x, p0, p1, now, later, after + mids);
  }

  // ---------------------------------------------------------------------------------------------------------
  // The retry

  /** What the deactivation fails over, the next request, and whether both end where they did the first time. The
      retried request is among them only if it was in the read slot as well. */
  ghost predicate RetrySafe(g: Config, up: set<ServerId>, p: Pool, s: ServerId, r: RequestId)
    requires s < |p.servers|
  {
    var v := OutOfQueues(p, s, r).servers[s];
    var (ids, ok) := (Evicted(v), Usables(up, p) - {s});
    && (v.sendqueue != [] ==> SameEnd(g, ok, p, s, Before(ids, v.sendqueue[0]), v.sendqueue[0]))
    && (r in ids ==> SameEnd(g, ok, p, s, Before(ids, r), r))
  }

  lemma SafeFrom(g: Config, up: set<ServerId>, p: Pool, s: ServerId, before: seq<RequestId>, x: RequestId)
    requires s < |p.servers|
    ensures Usables(up, Clear(p, s)) == Usables(up, p) - {s}
    ensures SameEnd(g, Usables(up, p) - {s}, p, s, before, x)
            <==> SameEnd(g, Usables(up, Clear(p, s)), Clear(p, s), s, before, x)
  {
    forall t: ServerId ensures t in Usables(up, Clear(p, s)) <==> t in Usables(up, p) && t != s {
    }
    hide Usables, GoesTo, GoesOn;
  }

  lemma RetryIds(g: Config, p: Pool, s: ServerId, r: RequestId)
    requires AlignOk(g, p) && s < |p.servers| && p.servers[s].sendreq == Some(r)
    requires Without(p.servers[s].sendqueue, r) != []
    ensures var v := OutOfQueues(p, s, r).servers[s];
            && NoDuplicates(Evicted(v)) && IdsOk(|p.requests|, Evicted(v))
            && v.sendqueue != [] && v.sendqueue[0] in Evicted(v) && v.sendqueue[0] != r
            && forall y :: (y in Evicted(v) || y == r <==> On(p, s, y)) && (y in Evicted(v) ==> On(p, s, y))
  {
    assert LinesAligned(p.servers[s]);
    EvictedInRange(g, p, s);
    hide Shaped, Exclusive, LinesAligned;
    LineIds(p.servers[s], r);
  }

  lemma LineIds(v: Server, r: RequestId)
    requires LinesAligned(v) && v.sendreq == Some(r) && Without(v.sendqueue, r) != []
    ensures var w := v.(sendqueue := Without(v.sendqueue, r), readqueue := Without(v.readqueue, r));
            && NoDuplicates(Evicted(w)) && w.sendqueue[0] in Evicted(w) && w.sendqueue[0] != r
            && forall y :: (y in Evicted(w) || y == r <==> y in ReadLine(v))
                           && (y in Evicted(w) ==> y in ReadLine(v) && y in Evicted(v))
  {
    QueueUnique(v);
    SuffixIn(SendLine(v), ReadLine(v));
    var w := v.(sendqueue := Without(v.sendqueue, r), readqueue := Without(v.readqueue, r));
    assert r in SendLine(v) && w.sendqueue[0] in w.sendqueue && w.sendqueue[0] in SendLine(v);
    hide NoDuplicates, IsSuffix;
  }

  /** The retry as three steps: the failovers of the deactivation, the next request again, and the retried one. */
  lemma RefusedIs(g: Config, up: set<ServerId>, p: Pool, s: ServerId, r: RequestId)
      returns (ids: seq<RequestId>, next: RequestId, all: Pool, p2: Pool)
    requires AlignOk(g, p) && s < |p.servers| && r < |p.requests| && RetryRefused(up, p, s, r)
    ensures var v := OutOfQueues(p, s, r).servers[s];
            v.sendqueue != [] && ids == Evicted(v) && next == v.sendqueue[0] && next < |p.requests|
    ensures IdsOk(|p.requests|, ids) && Shaped(g, Clear(p, s)) && all == FailoverAll(g, up, Clear(p, s), s, ids)
    ensures Shaped(g, p2) && |p2.requests| == |p.requests| && p2 == Unlisted(Failover(g, up, all, s, next), s)
    ensures SelectRetry(g, up, p, s, r) == Failover(g, up, p2, s, r)
  {
    RetryIds(g, p, s, r);
    QueuesShaped(g, p, s, r);
    EvictedInRange(g, p, s);
    var p1 := OutOfQueues(p, s, r);
    ids, next := Evicted(p1.servers[s]), p1.servers[s].sendqueue[0];
    assert Clear(p1, s).servers == Clear(p, s).servers;
    assert Clear(p1, s) == Clear(p, s);
    all := FailoverAll(g, up, Clear(p, s), s, ids);
    assert all == Deactivate(g, up, p1, s);
    DownAfterDeactivate(g, up, p1, s, s);
    assert WithServer(all, s, all.servers[s].(sendreq := None)) == all by {
      assert all.servers[s := all.servers[s]] == all.servers;
    }
    DownAfterFailover(g, up, all, s, next, s);
    p2 := Unlisted(Failover(g, up, all, s, next), s);
    hide Deactivate, Failover, FailoverAll, Clear, Evicted, LinesAligned;
    assert SlotNext(g, up, p1, s) == p2;
    assert OutOfReadSlot(g, p2, s, r) == p2;
  }

  /** Taking a server off the wakeup list changes nothing of this. */
  lemma UnlistedLands(g: Config, up: set<ServerId>, p: Pool, p': Pool, s: ServerId, x: RequestId, l: Landing)
    requires Landed(g, up, p, p', x, l) && SameGround(up, p, p') && s < |p'.servers|
    ensures Landed(g, up, p, Unlisted(p', s), x, l) && SameGround(up, p, Unlisted(p', s))
  {
    assert Usables(up, Unlisted(p', s)) == Usables(up, p');
    hide Usable, Usables, Appended, PushUnique;
  }

  /** The three steps and what each of them is about. */
  ghost predicate Steps(g: Config, up: set<ServerId>, p: Pool, s: ServerId, r: RequestId, ids: seq<RequestId>,
                        next: RequestId, all: Pool, p2: Pool, last: Pool) {
    && AlignOk(g, p) && Tidy(up, p) && s < |p.servers| && IdsOk(|p.requests|, ids) && NoDuplicates(ids) && next in ids
    && next != r && (forall y :: y in ids ==> !Tracked(p, y)) && !Tracked(p, r)
    && all == FailoverAll(g, up, p, s, ids) && AlignOk(g, all) && Placed(p, all, ids) && Settling(up, p, all, ids)
    && next < |all.requests| && r < |p2.requests| && Shaped(g, p2) && Shaped(g, last)
    && Landed(g, up, all, p2, next, Place(g, Usables(up, p), all.requests[next], s)) && SameGround(up, all, p2)
    && Landed(g, up, p2, last, r, Place(g, Usables(up, p), p2.requests[r], s)) && SameGround(up, p2, last)
    && last == Failover(g, up, p2, s, r)
  }

  lemma NoSteps(g: Config, up: set<ServerId>, p: Pool, s: ServerId)
    requires Shaped(g, p) && Tidy(up, p) && s < |p.servers|
    ensures Settling(up, p, p, [])
  {
    AllSettle(g, up, p, s, []);
    assert FailoverAll(g, up, p, s, []) == p;
  }

  /** The next request's second failover, and then the retried one's, if it had one before. */
  lemma StepsExact(g: Config, up: set<ServerId>, p: Pool, s: ServerId, r: RequestId, ids: seq<RequestId>,
                   next: RequestId, all: Pool, p2: Pool, last: Pool)
    requires Steps(g, up, p, s, r, ids, next, all, p2, last)
    ensures AlignOk(g, last) <==> SameEnd(g, Usables(up, p), p, s, Before(ids, next), next)
                                  && (r in ids ==> SameEnd(g, Usables(up, p), p, s, Before(ids, r), r))
    ensures AlignOk(g, last) ==> forall x :: Tracked(last, x) <==> Tracked(p, x) || x in ids || x == r
  {
    assert Shaped(g, all) && Tidy(up, all) && s < |all.servers| && Tidy(up, p2) && s < |p2.servers|
      && Usables(up, p2) == Usables(up, p);
    hide AlignOk, Tidy, Shaped, FailoverAll, Failover, Landed, Place, SameEnd, NoDuplicates, Tracked, Still, Twice,
      Settling,
         Placed, SameGround, Usables, Before;
    NoSteps(g, up, all, s);
    SecondTime(g, up, p, s, ids, next, [], all, p2);
    LandedSettles(g, up, all, p2, next, Place(g, Usables(up, p), all.requests[next], s));
    LandedSettles(g, up, p2, last, r, Place(g, Usables(up, p), p2.requests[r], s));
    if !SameEnd(g, Usables(up, p), p, s, Before(ids, next), next) {
      TwiceStays(up, p2, last, [r], next);
      TwiceNotAligned(g, last, next);
    } else {
      StillAligned(g, up, all, p2);
      if r in ids {
        SecondTime(g, up, p, s, ids, r, [next], p2, last);
        if SameEnd(g, Usables(up, p), p, s, Before(ids, r), r) {
          StillAligned(g, up, p2, last);
          PlacesSum(p, all, p2, last, ids, r);
        } else {
          TwiceNotAligned(g, last, r);
        }
      } else {
        assert !Tracked(p2, r) by { NotPlaced(p, all, ids, r); }
        FailoverAligned(g, up, p2, s, r);
        PlacesSum(p, all, p2, last, ids, r);
      }
    }
  }

  lemma NotPlaced(p: Pool, p': Pool, ids: seq<RequestId>, x: RequestId)
    requires Placed(p, p', ids) && !Tracked(p, x) && x !in ids
    ensures !Tracked(p', x)
  {
    hide Tracked;
  }

  lemma PlacesSum(p: Pool, p1: Pool, p2: Pool, p3: Pool, ids: seq<RequestId>, r: RequestId)
    requires Placed(p, p1, ids) && forall x :: Tracked(p2, x) <==> Tracked(p1, x)
    requires if r in ids then forall x :: Tracked(p3, x) <==> Tracked(p2, x) else Placed(p2, p3, [r])
    ensures forall x :: Tracked(p3, x) <==> Tracked(p, x) || x in ids || x == r
  {
    hide Tracked;
  }

  /** A retry keeps the pipelines aligned and every request in one place if and only if the next request's stream can
      be opened, or the second failovers end where the first ones did. Other servers hold requests only on streams that
      are open. */
  lemma RetryExact(g: Config, up: set<ServerId>, p: Pool, s: ServerId, r: RequestId)
    requires AlignOk(g, p) && s < |p.servers| && r < |p.requests| && On(p, s, r) && Tidy(up, Clear(p, s))
    ensures var p' := SelectRetry(g, up, p, s, r);
            && (AlignOk(g, p') <==> (RetryRefused(up, p, s, r) ==> RetrySafe(g, up, p, s, r)))
            && (AlignOk(g, p') ==> forall x :: Tracked(p', x) <==> Tracked(p, x))
  {
    if !RetryRefused(up, p, s, r) {
      RetryOk(g, up, p, s, r);
    } else {
      var ids, next, all, p2 := RefusedIs(g, up, p, s, r);
      RetryIds(g, p, s, r);
      ClearAligned(g, p, s);
      var (empty, last) := (Clear(p, s), Failover(g, up, p2, s, r));
      AreSteps(g, up, empty, s, r, ids, next, all, p2, last);
      SafeFrom(g, up, p, s, Before(ids, next), next);
      SafeFrom(g, up, p, s, Before(ids, r), r);
      hide Steps, SameEnd, AlignOk, Tracked, SelectRetry, Evicted, Clear, Usables, Failover, FailoverAll;
      StepsExact(g, up, empty, s, r, ids, next, all, p2, last);
    }
  }

  lemma AreSteps(g: Config, up: set<ServerId>, p: Pool, s: ServerId, r: RequestId, ids: seq<RequestId>,
                 next: RequestId, all: Pool, p2: Pool, last: Pool)
    requires AlignOk(g, p) && Tidy(up, p) && s < |p.servers| && IdsOk(|p.requests|, ids) && NoDuplicates(ids)
             && next in ids
    requires next != r && (forall y :: y in ids ==> !Tracked(p, y)) && !Tracked(p, r) && r < |p.requests|
    requires all == FailoverAll(g, up, p, s, ids) && next < |p.requests|
    requires Shaped(g, p2) && |p2.requests| == |p.requests| && p2 == Unlisted(Failover(g, up, all, s, next), s)
    requires last == Failover(g, up, p2, s, r)
    ensures Steps(g, up, p, s, r, ids, next, all, p2, last)
  {
    FailoverAllAligned(g, up, p, s, ids);
    AllSettle(g, up, p, s, ids);
    hide AlignOk, Tidy, FailoverAll, Failover, Landed, Place, NoDuplicates, Tracked, Unlisted, Placed;
    FailoverLands(g, up, all, s, next);
    UnlistedLands(g, up, all, Failover(g, up, all, s, next), s, next,
                  Place(g, Usables(up, all), all.requests[next], s));
    FailoverLands(g, up, p2, s, r);
  }
}
