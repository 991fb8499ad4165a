/** The consistent hashing ring of src/memcache_consistent_hash.c. */
module ConsistentHash {
  import opened Basics
  import opened Decimal

  const TWO_32 := 0x1_0000_0000

  type uint32 = x: nat | x < TWO_32 witness 0

  const BUCKETS := 1024
  const POINTS := 160

  /** 0xffffffff / MMC_CONSISTENT_BUCKETS */
  const STEP := 4194303

  datatype Point = Point(server: ServerId, point: uint32)

  /** The hash function in its three parts; nothing is assumed about them. */
  datatype Hash = Hash(init: uint32, combine: (uint32, string) -> uint32, finish: uint32 -> uint32)

  function HashKey(h: Hash, key: string): uint32 { h.finish(h.combine(h.init, key)) }

  // ---------------------------------------------------------------------------------------------------------
  // The circle

  predicate Sorted(ps: seq<Point>) { forall i, j :: 0 <= i < j < |ps| ==> ps[i].point <= ps[j].point }

  /** The first point at or after `x` on the circle. */
  predicate IsNext(ps: seq<Point>, x: uint32, i: nat) {
    && i < |ps|
    && if exists k :: 0 <= k < |ps| && ps[k].point >= x
       then ps[i].point >= x && forall k :: 0 <= k < i ==> ps[k].point < x
       else i == 0
  }

  function NextIndex(ps: seq<Point>, x: uint32): (i: nat)
    requires ps != []
    ensures IsNext(ps, x, i)
  {
    if forall k :: 0 <= k < |ps| ==> ps[k].point < x then 0 else SearchFrom(ps, x, 0)
  }

  function SearchFrom(ps: seq<Point>, x: uint32, from: nat): (i: nat)
    requires from <= |ps| && (forall k :: 0 <= k < from ==> ps[k].point < x)
    requires exists k :: 0 <= k < |ps| && ps[k].point >= x
    ensures i < |ps| && ps[i].point >= x && forall k :: 0 <= k < i ==> ps[k].point < x
    decreases |ps| - from
  {
    if from < |ps| && ps[from].point < x then SearchFrom(ps, x, from + 1) else from
  }

  function Owner(ps: seq<Point>, x: uint32): ServerId
    requires ps != []
  {
    ps[NextIndex(ps, x)].server
  }

  lemma NextUnique(ps: seq<Point>, x: uint32, i: nat)
    requires ps != [] && IsNext(ps, x, i)
    ensures Owner(ps, x) == ps[i].server
  {
    var j := NextIndex(ps, x);
    assert i == j by {
      if i < j { assert ps[i].point < x || j == 0; }
      if j < i { assert ps[j].point < x || i == 0; }
    }
  }

  /** mmc_consistent_find: the binary search with its wrap-around. */
  method Find(points: seq<Point>, x: uint32) returns (server: ServerId)
    requires points != [] && Sorted(points)
    ensures server == Owner(points, x)
  {
    var lo, hi := 0, |points| - 1;
    while true
      invariant 0 <= lo <= hi < |points|
      invariant lo > 0 ==> points[lo - 1].point < x
      invariant hi < |points| - 1 || lo > 0 ==> points[hi].point >= x
      decreases hi - lo
    {
      if x <= points[lo].point || x > points[hi].point {
        NextUnique(points, x, lo);
        return points[lo].server;
      }
      var mid := lo + (hi - lo) / 2;
      if x <= points[mid].point && x > (if mid > 0 then points[mid - 1].point else 0) {
        NextUnique(points, x, mid);
        return points[mid].server;
      }
      if points[mid].point < x {
        lo := mid + 1;
      } else {
        hi := mid - 1;
      }
    }
  }

  // ---------------------------------------------------------------------------------------------------------
  // Ties

  /** Points at the same place belong to the same server. */
  predicate NoCollision(ps: seq<Point>) {
    forall i, j :: 0 <= i < |ps| && 0 <= j < |ps| && ps[i].point == ps[j].point ==> ps[i].server == ps[j].server
  }

  lemma InMultiset(a: seq<Point>, b: seq<Point>, extra: seq<Point>, i: nat) returns (j: nat, inA: bool)
    requires multiset(b) == multiset(a) + multiset(extra) && i < |b|
    ensures if inA then j < |a| && a[j] == b[i] else j < |extra| && extra[j] == b[i]
  {
    assert b[i] in multiset(b);
    if b[i] in a {
      j :| 0 <= j < |a| && a[j] == b[i];
      inA := true;
    } else {
      assert b[i] in multiset(extra);
      j :| 0 <= j < |extra| && extra[j] == b[i];
      inA := false;
    }
  }

  lemma StillThere(a: seq<Point>, b: seq<Point>, extra: seq<Point>, i: nat) returns (j: nat)
    requires multiset(b) == multiset(a) + multiset(extra) && i < |a|
    ensures j < |b| && b[j] == a[i]
  {
    assert a[i] in multiset(a);
    assert a[i] in multiset(b);
    j :| 0 <= j < |b| && b[j] == a[i];
  }

  /** Minimal remapping: with the points of one more server on the circle, whatever order ties are sorted in, every
      place stays with its server or goes to the new one. */
  lemma MinimalRemapping(a: seq<Point>, b: seq<Point>, extra: seq<Point>, server: ServerId, x: uint32)
    requires a != [] && Sorted(a) && Sorted(b) && multiset(b) == multiset(a) + multiset(extra)
    requires NoCollision(a) && forall i :: 0 <= i < |extra| ==> extra[i].server == server
    ensures b != [] && (Owner(b, x) == Owner(a, x) || Owner(b, x) == server)
  {
    var k0 := StillThere(a, b, extra, 0);
    var i, j := NextIndex(b, x), NextIndex(a, x);
    var m, inA := InMultiset(a, b, extra, i);
    if inA {
      var k := StillThere(a, b, extra, j);
      assert a[m] == b[i] && b[k] == a[j];
      if b[i].point >= x {
        assert a[j].point >= x && a[j].point <= a[m].point;
        assert b[i].point <= b[k].point;
      } else {
        assert i == 0 && forall n :: 0 <= n < |b| ==> b[n].point < x;
        forall n | 0 <= n < |a| ensures a[n].point < x {
          var n' := StillThere(a, b, extra, n);
          assert b[n'] == a[n];
        }
        assert j == 0 && a[0].point <= a[m].point && b[0].point <= b[k].point;
      }
      assert a[j].point == a[m].point;
    }
  }

  /** The order in which ties are sorted, and so the order in which servers were added, does not matter. */
  lemma OrderIndependent(a: seq<Point>, b: seq<Point>, x: uint32)
    requires a != [] && Sorted(a) && Sorted(b) && multiset(b) == multiset(a) && NoCollision(a)
    ensures b != [] && Owner(b, x) == Owner(a, x)
  {
    var extra: seq<Point> := [];
    assert multiset(b) == multiset(a) + multiset(extra);
    MinimalRemapping(a, b, extra, Owner(a, x), x);
  }

  function Insert(p: Point, s: seq<Point>): seq<Point> {
    if s == [] || p.point <= s[0].point then [p] + s else [s[0]] + Insert(p, s[1..])
  }

  /** One of the orders qsort may produce. */
  function Arrange(s: seq<Point>): seq<Point> {
    if s == [] then [] else Insert(s[0], Arrange(s[1..]))
  }

  lemma {:induction false} InsertOk(p: Point, s: seq<Point>)
    requires Sorted(s)
    ensures Sorted(Insert(p, s)) && multiset(Insert(p, s)) == multiset(s) + multiset{p}
  {
    if !(s == [] || p.point <= s[0].point) {
      var t := s[1..];
      assert s == [s[0]] + t;
      InsertOk(p, t);
      var r := Insert(p, t);
      forall i | 0 <= i < |r| ensures s[0].point <= r[i].point {
        assert r[i] in multiset(r);
        assert r[i] in t || r[i] == p;
      }
    }
  }

  /** The inserted point precedes every other at its place. */
  lemma {:induction false} InsertFirst(p: Point, s: seq<Point>) returns (k: nat)
    requires Sorted(s)
    ensures k < |Insert(p, s)| && Insert(p, s)[k] == p
    ensures forall i :: 0 <= i < k ==> Insert(p, s)[i].point < p.point
  {
    if s == [] || p.point <= s[0].point {
      k := 0;
    } else {
      k := InsertFirst(p, s[1..]);
      k := k + 1;
    }
  }

  lemma {:induction false} ArrangeOk(s: seq<Point>)
    ensures Sorted(Arrange(s)) && multiset(Arrange(s)) == multiset(s)
  {
    if s != [] {
      ArrangeOk(s[1..]);
      InsertOk(s[0], Arrange(s[1..]));
      assert s == [s[0]] + s[1..];
    }
  }

  /** An arrangement in which point `i` comes first among those at its place. */
  lemma Favour(ps: seq<Point>, i: nat) returns (a: seq<Point>)
    requires i < |ps|
    ensures a != [] && Sorted(a) && multiset(a) == multiset(ps) && Owner(a, ps[i].point) == ps[i].server
  {
    var rest := ps[..i] + ps[i + 1..];
    ArrangeOk(rest);
    InsertOk(ps[i], Arrange(rest));
    a := Insert(ps[i], Arrange(rest));
    var k := InsertFirst(ps[i], Arrange(rest));
    assert ps == ps[..i] + [ps[i]] + ps[i + 1..];
    assert multiset(ps) == multiset(rest) + multiset{ps[i]};
    hide Insert, Arrange, Sorted;
    assert IsNext(a, ps[i].point, k);
    NextUnique(a, ps[i].point, k);
  }

  /** Exactly when the ring is well defined: the server of each place depends on the points alone, and not on how ties
      are sorted, iff no two servers have a point at the same place. */
  lemma WellDefinedExactly(ps: seq<Point>)
    requires ps != []
    ensures NoCollision(ps) <==>
              forall a, b, x: uint32 ::
                a != [] && b != [] && Sorted(a) && Sorted(b) && multiset(a) == multiset(ps)
                  && multiset(b) == multiset(ps)
                ==> Owner(a, x) == Owner(b, x)
  {
    if NoCollision(ps) {
      forall a, b, x: uint32 | a != [] && b != [] && Sorted(a) && Sorted(b)
                               && multiset(a) == multiset(ps) && multiset(b) == multiset(ps)
        ensures Owner(a, x) == Owner(b, x)
      {
        SameCollisions(ps, a);
        OrderIndependent(a, b, x);
      }
    } else {
      var i, j :| 0 <= i < |ps| && 0 <= j < |ps| && ps[i].point == ps[j].point && ps[i].server != ps[j].server;
      var a := Favour(ps, i);
      var b := Favour(ps, j);
      assert Owner(a, ps[i].point) != Owner(b, ps[i].point);
    }
  }

  /** Points of two servers at one place: each sorting of the tie gives the place to another of them. */
  lemma TieSorted(x: uint32)
    ensures var (a, b) := ([Point(0, x), Point(1, x)], [Point(1, x), Point(0, x)]);
            Sorted(a) && Sorted(b) && multiset(a) == multiset(b) && Owner(a, x) == 0 && Owner(b, x) == 1
  {
    NextUnique([Point(0, x), Point(1, x)], x, 0);
    NextUnique([Point(1, x), Point(0, x)], x, 0);
  }

  lemma SameCollisions(a: seq<Point>, b: seq<Point>)
    requires NoCollision(a) && multiset(b) == multiset(a)
    ensures NoCollision(b)
  {
    forall i, j | 0 <= i < |b| && 0 <= j < |b| && b[i].point == b[j].point ensures b[i].server == b[j].server {
      assert b[i] in multiset(b) && b[j] in multiset(b);
      assert b[i] in a && b[j] in a;
    }
  }

  // ---------------------------------------------------------------------------------------------------------
  // The hash state

  /** The points of one server: weight * MMC_CONSISTENT_POINTS hashes of "host:port-i". */
  function PointsOf(h: Hash, server: ServerId, host: string, port: nat, weight: nat): seq<Point> {
    var seed := h.combine(h.init, host + ":" + Print(port) + "-");
    seq(weight * POINTS, i requires 0 <= i => Point(server, h.finish(h.combine(seed, Print(i)))))
  }

  class ConsistentState {
    const hash: Hash
    var numServers: nat
    var points: seq<Point>
    const buckets: array<ServerId>
    var populated: bool

    ghost predicate Valid()
      reads this, buckets
    {
      && buckets.Length == BUCKETS
      && (numServers > 0 <==> points != [])
      && (numServers <= 1 ==> forall i, j :: 0 <= i < j < |points| ==> points[i].server == points[j].server)
      && (populated ==> points != [] && Sorted(points)
                        && forall i :: 0 <= i < BUCKETS ==> buckets[i] == Owner(points, STEP * i))
    }

    constructor (hash: Hash)
      ensures Valid() && fresh(buckets) && this.hash == hash && numServers == 0 && points == []
    {
      this.hash := hash;
      numServers, points, populated := 0, [], false;
      buckets := new ServerId[BUCKETS];
    }

    /** qsort leaves the points in some sorted order. Bucket i belongs to the point next after STEP * i. */
    method PopulateBuckets()
      requires Valid() && points != []
      modifies this, buckets
      ensures Valid() && populated && numServers == old(numServers)
      ensures Sorted(points) && multiset(points) == multiset(old(points))
      ensures forall i :: 0 <= i < BUCKETS ==> buckets[i] == Owner(points, STEP * i)
    {
      ghost var before := points;
      points := SortPoints(points);
      SameServers(before, points);
      for i := 0 to BUCKETS
        modifies buckets
        invariant forall k :: 0 <= k < i ==> buckets[k] == Owner(points, STEP * k)
      {
        buckets[i] := Find(points, STEP * i);
      }
      populated := true;
    }

    /** mmc_consistent_find_server */
    method FindServer(key: string) returns (server: ServerId)
      requires Valid() && numServers > 0
      modifies this, buckets
      ensures Valid() && numServers == old(numServers) && multiset(points) == multiset(old(points)) && points != []
      ensures (numServers > 1 ==> Sorted(points)) && server == Mapped(numServers, points, HashKey(hash, key))
      ensures var h: nat := hash.finish(hash.combine(hash.init, key));
              server == if numServers > 1 then Owner(points, 0x3f_ffff * (h % 1024)) else points[0].server
    {
      if numServers > 1 {
        if !populated {
          PopulateBuckets();
        }
        return buckets[HashKey(hash, key) % BUCKETS];
      }
      return points[0].server;
    }

    /** mmc_consistent_add_server */
    method AddServer(server: ServerId, host: string, port: nat, weight: nat)
      requires Valid() && weight > 0
      modifies this
      ensures Valid() && numServers == old(numServers) + 1 && !populated
      ensures points == old(points) + PointsOf(hash, server, host, port, weight)
      ensures |points| == |old(points)| + 160 * weight
      ensures forall i :: 0 <= i < |points| ==> i < |old(points)| || points[i].server == server
    {
      var seed := hash.combine(hash.init, host + ":" + Print(port) + "-");
      var count := weight * POINTS;
      var more: seq<Point> := [];
      for i := 0 to count
        invariant |more| == i
        invariant forall k :: 0 <= k < i ==> more[k] == Point(server, hash.finish(hash.combine(seed, Print(k))))
      {
        more := more + [Point(server, hash.finish(hash.combine(seed, Print(i))))];
      }
      assert more == PointsOf(hash, server, host, port, weight);
      points := points + more;
      numServers := numServers + 1;
      populated := false;
    }
  }

  /** Stands for qsort: of its order nothing is used but that it is sorted. */
  method SortPoints(ps: seq<Point>) returns (r: seq<Point>)
    ensures Sorted(r) && multiset(r) == multiset(ps)
  {
    ArrangeOk(ps);
    r := Arrange(ps);
  }

  lemma SameServers(a: seq<Point>, b: seq<Point>)
    requires multiset(b) == multiset(a)
    ensures |a| == |b|
    ensures (forall i, j :: 0 <= i < j < |a| ==> a[i].server == a[j].server) ==>
              forall i, j :: 0 <= i < j < |b| ==> b[i].server == b[j].server
  {
    assert |multiset(a)| == |a| && |multiset(b)| == |b|;
    if forall i, j :: 0 <= i < j < |a| ==> a[i].server == a[j].server {
      forall i, j | 0 <= i < j < |b| ensures b[i].server == b[j].server {
        assert b[i] in multiset(b) && b[j] in multiset(b);
        assert b[i] in a && b[j] in a;
      }
    }
  }

  /** The table's places are where the 32-bit code puts them: no step overflows. */
  lemma BucketPlaces(i: nat)
    requires i < BUCKETS
    ensures STEP == (TWO_32 - 1) / BUCKETS && STEP * i < TWO_32
  {
  }

  /** What a key's hash maps to in a pool of `n` servers with these points. */
  function Mapped(n: nat, ps: seq<Point>, hash: uint32): ServerId
    requires ps != []
  {
    if n > 1 then Owner(ps, STEP * (hash % BUCKETS)) else ps[0].server
  }

  /** In a pool of several servers every bucket is reached, by the hashes that leave its number as remainder, so each
      owner of a bucket's place is the server of some hash. */
  lemma EveryBucket(n: nat, ps: seq<Point>, b: nat, hash: uint32)
    requires n > 1 && ps != [] && b < BUCKETS
    ensures Mapped(n, ps, b) == Owner(ps, STEP * b)
    ensures hash % BUCKETS == b ==> Mapped(n, ps, hash) == Mapped(n, ps, b)
    ensures (exists h: uint32 :: Mapped(n, ps, h) == Owner(ps, STEP * b))
  {
    assert Mapped(n, ps, b) == Owner(ps, STEP * b);
  }

  /** Two servers that halve the ring: a key of hash 256 is mapped across it, and one of hash 0 is not. */
  lemma HalvesReached()
    ensures var ps := [Point(0, 0), Point(1, 0x8000_0000), Point(0, 0xffff_ffff)];
            Sorted(ps) && Mapped(2, ps, 0) == 0 && Mapped(2, ps, 256) == 1
  {
    var ps := [Point(0, 0), Point(1, 0x8000_0000), Point(0, 0xffff_ffff)];
    NextUnique(ps, STEP * 256, 1);
    NextUnique(ps, 0, 0);
  }

  /** A server has 160 points for each unit of its weight, all of them its own, the i-th at the hash of
      "host:port-i", computed in two steps. */
  lemma PointsExactly(h: Hash, server: ServerId, host: string, port: nat, weight: nat, i: nat)
    ensures |PointsOf(h, server, host, port, weight)| == 160 * weight
    ensures i < 160 * weight ==>
              var seed := h.combine(h.init, host + ":" + Print(port) + "-");
              PointsOf(h, server, host, port, weight)[i] == Point(server, h.finish(h.combine(seed, Print(i))))
  {
  }

  /** Adding a server to a pool leaves every key where it was or moves it to the new server, the step from one server
      to two included, where lookup changes from the first point to the table. */
  lemma AddingMovesToNew(n: nat, ps: seq<Point>, sorted: seq<Point>, extra: seq<Point>, server: ServerId, hash: uint32)
    requires n > 0 && ps != [] && NoCollision(ps) && (n > 1 ==> Sorted(ps))
    requires n == 1 ==> forall i, j :: 0 <= i < j < |ps| ==> ps[i].server == ps[j].server
    requires forall i :: 0 <= i < |extra| ==> extra[i].server == server
    requires Sorted(sorted) && multiset(sorted) == multiset(ps + extra)
    ensures sorted != []
    ensures Mapped(n + 1, sorted, hash) == Mapped(n, ps, hash) || Mapped(n + 1, sorted, hash) == server
  {
    var a := Arrange(ps);
    ArrangeOk(ps);
    SameCollisions(ps, a);
    SameServers(ps, a);
    assert |a| == |multiset(a)| == |ps|;
    assert multiset(sorted) == multiset(a) + multiset(extra);
    var x := STEP * (hash % BUCKETS);
    MinimalRemapping(a, sorted, extra, server, x);
    if n > 1 {
      OrderIndependent(a, ps, x);
    } else {
      var i := NextIndex(a, x);
      assert a[i] in multiset(a);
      assert a[i] in ps;
      assert a[i].server == ps[0].server;
    }
  }
}
