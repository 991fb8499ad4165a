/** Which server a key is tried on next: the failover sequence of src/memcache_pool.c. */
module Routing {
  import opened Basics
  import opened Sequences

  type Key = string

  /** The settings and the hash strategy. `home` is the strategy's answer for a key itself, `probe(k, i)` its
      answer for "k-i", the i-th alternative. Both are left uninterpreted here. */
  datatype Config = Config(
    numServers: nat,
    allowFailover: bool,
    maxAttempts: nat,
    home: Key -> ServerId,
    probe: (Key, nat) -> ServerId)

  ghost predicate ConfigOk(g: Config) {
    && (forall k :: g.home(k) < g.numServers)
    && (forall k, i :: g.probe(k, i) < g.numServers)
  }

  /** mmc_pool_find_next: the server and the index to go on from. The contract is the whole meaning: the first
      probe outside the skip list, or the last one the attempts allow (one probe is always made). */
  function FindNext(g: Config, key: Key, skip: seq<ServerId>, lastIndex: nat): (r: (ServerId, nat))
    ensures lastIndex < r.1 && (r.1 <= g.maxAttempts || r.1 == lastIndex + 1)
    ensures r.0 == g.probe(key, r.1 - 1)
    ensures forall i :: lastIndex <= i < r.1 - 1 ==> g.probe(key, i) in skip
    ensures r.0 in skip ==> g.maxAttempts <= r.1
    decreases g.maxAttempts - lastIndex
  {
    var mmc := g.probe(key, lastIndex);
    if mmc in skip && lastIndex + 1 < g.maxAttempts then FindNext(g, key, skip, lastIndex + 1)
    else (mmc, lastIndex + 1)
  }

  method FindNextLoop(g: Config, key: Key, skip: seq<ServerId>, lastIndex: nat) returns (mmc: ServerId, last: nat)
    ensures (mmc, last) == FindNext(g, key, skip, lastIndex)
  {
    mmc, last := g.probe(key, lastIndex), lastIndex + 1;
    while mmc in skip && last < g.maxAttempts
      invariant lastIndex < last && mmc == g.probe(key, last - 1)
      invariant FindNext(g, key, skip, lastIndex) == FindNext(g, key, skip, last - 1)
      decreases g.maxAttempts - last
    {
      mmc, last := g.probe(key, last), last + 1;
    }
  }

  /** The loop of mmc_pool_failover_handler: give up on `mmc`, take the next server, go on while that one is down
      and attempts and servers remain. Returns the server, the extended skip list and the next index. */
  function NextServer(g: Config, down: set<ServerId>, key: Key, mmc: ServerId, failed: seq<ServerId>, index: nat)
    : (r: (ServerId, seq<ServerId>, nat))
    requires index < g.maxAttempts
    ensures index < r.2 <= g.maxAttempts
    ensures r.0 == g.probe(key, r.2 - 1)
    ensures failed <= r.1 && mmc in r.1 && (forall x :: x in r.1 ==> x in failed || x == mmc || x in down)
    ensures r.0 in down ==> r.2 == g.maxAttempts || g.numServers <= |r.1|
    ensures r.0 in r.1 ==> r.2 == g.maxAttempts
    ensures NoDuplicates(failed) ==> NoDuplicates(r.1)
    decreases g.maxAttempts - index
  {
    var skip := PushUnique(failed, mmc);
    var (next, last) := FindNext(g, key, skip, index);
    if next in down && last < g.maxAttempts && |skip| < g.numServers then
      NextServer(g, down, key, next, skip, last)
    else (next, skip, last)
  }

  /** mmc_pool_find: the key's own server, or while that one is down the first alternative that is not. */
  function Find(g: Config, down: set<ServerId>, key: Key): (mmc: ServerId)
    ensures g.home(key) !in down || !g.allowFailover ==> mmc == g.home(key)
    ensures g.home(key) in down && g.allowFailover && mmc in down ==>
              g.probe(key, 0) in down && forall i :: 0 <= i < g.maxAttempts ==> g.probe(key, i) in down
    ensures g.home(key) in down && g.allowFailover ==>
              exists i :: 0 <= i && mmc == g.probe(key, i) && (i < g.maxAttempts || i == 0)
                          && forall j :: 0 <= j < i ==> g.probe(key, j) in down
  {
    if g.home(key) in down && g.allowFailover then FindUp(g, down, key, 0) else g.home(key)
  }

  function FindUp(g: Config, down: set<ServerId>, key: Key, index: nat): (mmc: ServerId)
    ensures mmc in down ==>
              g.probe(key, index) in down && forall i :: index <= i < g.maxAttempts ==> g.probe(key, i) in down
    ensures exists i :: index <= i && mmc == g.probe(key, i) && (i < g.maxAttempts || i == index)
                        && forall j :: index <= j < i ==> g.probe(key, j) in down
    decreases g.maxAttempts - index
  {
    var (mmc, last) := FindNext(g, key, [], index);
    assert last == index + 1;
    if mmc in down && last < g.maxAttempts then FindUp(g, down, key, last) else mmc
  }

  /** The further servers of a redundant request (mmc_pool_schedule_key), each the next one not chosen before, and
      the index reached. */
  function Replicas(g: Config, key: Key, skip: seq<ServerId>, mmc: ServerId, index: nat, count: nat)
    : (r: (seq<ServerId>, nat))
    ensures |r.0| == count && index <= r.1
    decreases count
  {
    if count == 0 then ([], index)
    else
      var chosen := PushUnique(skip, mmc);
      var (next, last) := FindNext(g, key, chosen, index);
      var (more, end) := Replicas(g, key, chosen, next, last, count - 1);
      ([next] + more, end)
  }

  // ---------------------------------------------------------------------------------------------------------
  // Which probes are new

  /** Exactly when mmc_pool_find_next finds a server outside the skip list: a probe that the attempts allow, or the
      one that is always made, is outside. */
  lemma FindsNewExactly(g: Config, key: Key, skip: seq<ServerId>, lastIndex: nat)
    ensures FindNext(g, key, skip, lastIndex).0 !in skip
            <==> exists i :: lastIndex <= i && (i < g.maxAttempts || i == lastIndex) && g.probe(key, i) !in skip
  {
    var (mmc, last) := FindNext(g, key, skip, lastIndex);
    if mmc !in skip { assert g.probe(key, last - 1) !in skip; }
  }

  /** `start` and the servers of the first `n` probes. */
  function Seen(g: Config, key: Key, start: set<ServerId>, n: nat): set<ServerId> {
    if n == 0 then start else Seen(g, key, start, n - 1) + {g.probe(key, n - 1)}
  }

  /** Probe k names a server that neither `start` nor an earlier probe named. */
  predicate IsNew(g: Config, key: Key, start: set<ServerId>, k: nat) { g.probe(key, k) !in Seen(g, key, start, k) }

  lemma {:induction false} SeenGrows(g: Config, key: Key, start: set<ServerId>, a: nat, b: nat)
    requires a <= b
    ensures Seen(g, key, start, a) <= Seen(g, key, start, b)
    ensures |Seen(g, key, start, a)| <= |Seen(g, key, start, b)|
    decreases b - a
  {
    if a < b {
      SeenGrows(g, key, start, a, b - 1);
      var before, mmc := Seen(g, key, start, b - 1), g.probe(key, b - 1);
      assert if mmc in before then before + {mmc} == before else |before + {mmc}| == |before| + 1;
    }
  }

  /** Probes that name only servers seen before add nothing. */
  lemma {:induction false} SeenStays(g: Config, key: Key, start: set<ServerId>, a: nat, b: nat)
    requires a <= b && forall i :: a <= i < b ==> g.probe(key, i) in Seen(g, key, start, a)
    ensures Seen(g, key, start, b) == Seen(g, key, start, a)
    decreases b - a
  {
    if a < b { SeenStays(g, key, start, a, b - 1); }
  }

  /** From probe `index` on there is a new server for each of `count` searches. A search ends at the last attempt; once
      the attempts are used up each search makes one more probe. */
  predicate Enough(g: Config, key: Key, start: set<ServerId>, index: nat, count: nat) {
    var (have, all) := (|Seen(g, key, start, index)|, |Seen(g, key, start, g.maxAttempts)|);
    if index >= g.maxAttempts then forall k | index <= k < index + count :: IsNew(g, key, start, k)
    else
      have + count <= all
      || forall k | g.maxAttempts - 1 <= k < g.maxAttempts + have + count - all :: IsNew(g, key, start, k)
  }

  /** The search from `index`, when exactly the servers of earlier probes are skipped. */
  lemma SearchStep(g: Config, key: Key, start: set<ServerId>, skip: seq<ServerId>, index: nat)
    requires forall s :: s in skip <==> s in Seen(g, key, start, index)
    ensures var (next, last) := FindNext(g, key, skip, index);
            && (next !in skip ==>
                  IsNew(g, key, start, last - 1) && Seen(g, key, start, last) == Seen(g, key, start, index) + {next}
                  && |Seen(g, key, start, last)| == |Seen(g, key, start, index)| + 1)
            && (next in skip ==> !IsNew(g, key, start, if index < g.maxAttempts then g.maxAttempts - 1 else index)
                                 && Seen(g, key, start, last) == Seen(g, key, start, index)
                                 && (index < g.maxAttempts ==> last == g.maxAttempts))
  {
    var (next, last) := FindNext(g, key, skip, index);
    hide FindNext;
    forall i | index <= i < last - 1 ensures g.probe(key, i) in Seen(g, key, start, index) {
      assert g.probe(key, i) in skip;
    }
    SeenStays(g, key, start, index, last - 1);
  }

  lemma EnoughStep(g: Config, key: Key, start: set<ServerId>, skip: seq<ServerId>, index: nat, count: nat)
    requires count > 0 && forall s :: s in skip <==> s in Seen(g, key, start, index)
    ensures var (next, last) := FindNext(g, key, skip, index);
            if next in skip then !Enough(g, key, start, index, count)
            else Enough(g, key, start, index, count) <==> Enough(g, key, start, last, count - 1)
  {
    var (next, last) := FindNext(g, key, skip, index);
    SearchStep(g, key, start, skip, index);
    if index >= g.maxAttempts {
      assert last == index + 1;
      EnoughLate(g, key, start, index, count);
    } else if next in skip {
      EnoughNot(g, key, start, index, count);
    } else {
      EnoughLess(g, key, start, index, last, count);
    }
    hide *;
  }

  lemma EnoughLate(g: Config, key: Key, start: set<ServerId>, index: nat, count: nat)
    requires count > 0 && index >= g.maxAttempts
    ensures Enough(g, key, start, index, count)
            <==> IsNew(g, key, start, index) && Enough(g, key, start, index + 1, count - 1)
  {
    hide Seen, IsNew;
  }

  lemma EnoughNot(g: Config, key: Key, start: set<ServerId>, index: nat, count: nat)
    requires count > 0 && index < g.maxAttempts && !IsNew(g, key, start, g.maxAttempts - 1)
    requires Seen(g, key, start, g.maxAttempts) == Seen(g, key, start, index)
    ensures !Enough(g, key, start, index, count)
  {
    hide Seen, IsNew;
  }

  /** A search that succeeds within the attempts. */
  lemma EnoughLess(g: Config, key: Key, start: set<ServerId>, index: nat, last: nat, count: nat)
    requires count > 0 && index < last <= g.maxAttempts && IsNew(g, key, start, last - 1)
    requires |Seen(g, key, start, last)| == |Seen(g, key, start, index)| + 1
    ensures Enough(g, key, start, index, count) <==> Enough(g, key, start, last, count - 1)
  {
    hide Seen, IsNew;
  }

  /** Exactly when a request and its copies go to different servers, in terms of the probes alone. */
  lemma {:induction false} ReplicasDistinctFrom(g: Config, key: Key, start: set<ServerId>, skip: seq<ServerId>,
                                                mmc: ServerId, index: nat, count: nat)
    requires NoDuplicates(skip + [mmc]) && forall s :: s in skip + [mmc] <==> s in Seen(g, key, start, index)
    ensures NoDuplicates(skip + [mmc] + Replicas(g, key, skip, mmc, index, count).0)
            <==> Enough(g, key, start, index, count)
    decreases count
  {
    var chosen, all := skip + [mmc], Replicas(g, key, skip, mmc, index, count).0;
    if count == 0 {
      NoneNeeded(g, key, start, index);
      assert all == [] && chosen + all == chosen;
    } else {
      LastIsNew(skip, mmc);
      assert PushUnique(skip, mmc) == chosen;
      var (next, last) := FindNext(g, key, chosen, index);
      var more := Replicas(g, key, chosen, next, last, count - 1).0;
      assert all == [next] + more;
      hide *;
      EnoughStep(g, key, start, chosen, index, count);
      SearchStep(g, key, start, chosen, index);
      Associative(chosen, [next], more);
      if next in chosen {
        TwiceIn(chosen, next, more);
      } else {
        SnocUnique(chosen, next);
        ReplicasDistinctFrom(g, key, start, chosen, next, last, count - 1);
      }
    }
  }

  lemma NoneNeeded(g: Config, key: Key, start: set<ServerId>, index: nat)
    ensures Enough(g, key, start, index, 0)
  {
    if index < g.maxAttempts { SeenGrows(g, key, start, index, g.maxAttempts); }
  }

  lemma LastIsNew(skip: seq<ServerId>, mmc: ServerId)
    requires NoDuplicates(skip + [mmc])
    ensures mmc !in skip
  {
    assert (skip + [mmc])[|skip|] == mmc;
    assert forall i :: 0 <= i < |skip| ==> (skip + [mmc])[i] == skip[i];
  }

  lemma TwiceIn(a: seq<ServerId>, x: ServerId, b: seq<ServerId>)
    requires x in a
    ensures !NoDuplicates(a + [x] + b)
  {
    var i :| 0 <= i < |a| && a[i] == x;
    assert (a + [x] + b)[i] == (a + [x] + b)[|a|];
  }

  /** The servers of a request and `count` copies, for a request that starts on `mmc`, are pairwise distinct if and only
      if there are that many servers among `mmc` and the attempts' probes, or the probes beyond them make up for it. */
  lemma ReplicasDistinct(g: Config, key: Key, mmc: ServerId, count: nat)
    ensures NoDuplicates([mmc] + Replicas(g, key, [], mmc, 0, count).0) <==> Enough(g, key, {mmc}, 0, count)
  {
    assert [] + [mmc] == [mmc];
    ReplicasDistinctFrom(g, key, {mmc}, [], mmc, 0, count);
  }

  /** A key whose attempts all lead back to where it is: the request and both copies go to one server of three. */
  lemma ReplicasRepeat()
    ensures var g := Config(3, true, 20, (k: Key) => 0, (k: Key, i: nat) => 0);
            && ConfigOk(g) && Replicas(g, "k", [], 0, 0, 2).0 == [0, 0]
            && !NoDuplicates([0] + Replicas(g, "k", [], 0, 0, 2).0)
  {
    var g := Config(3, true, 20, (k: Key) => 0, (k: Key, i: nat) => 0);
    var (_, last) := FindNext(g, "k", [0], 0);
    assert PushUnique([], 0) == [0] && PushUnique([0], 0) == [0];
    assert Replicas(g, "k", [0], 0, last, 1).0 == [0];
    assert ([0] + [0, 0])[0] == ([0] + [0, 0])[1];
  }
}
