/** Which servers a session read and the session write after it go to (PS_READ_FUNC and PS_WRITE_FUNC). */
module SessionServers {
  import opened Basics
  import opened Sequences
  import opened Routing

  /** The loops' `skip_servers` and `last_index`. */
  datatype Cursor = Cursor(skip: seq<ServerId>, index: nat)

  function Next(g: Config, key: Key, c: Cursor): ServerId { FindNext(g, key, c.skip, c.index).0 }

  /** The cursor once the server is done with and skipped. */
  function Skipped(g: Config, key: Key, c: Cursor): Cursor {
    var (mmc, last) := FindNext(g, key, c.skip, c.index);
    Cursor(PushUnique(c.skip, mmc), last)
  }

  /** The cursor after `i` servers. */
  function At(g: Config, key: Key, i: nat): Cursor {
    if i == 0 then Cursor([], 0) else Skipped(g, key, At(g, key, i - 1))
  }

  /** The i-th server of the key's sequence. */
  function Server(g: Config, key: Key, i: nat): ServerId { Next(g, key, At(g, key, i)) }

  /** The condition on which both loops go on. */
  predicate Wanted(g: Config, redundancy: nat, c: Cursor) {
    |c.skip| < redundancy && |c.skip| < g.numServers
  }

  /** The loops get as far as server `i`: its turn comes first, or the loop went on before every server up to it. */
  ghost predicate Reaches(g: Config, redundancy: nat, key: Key, i: nat) {
    forall k :: 1 <= k <= i ==> Wanted(g, redundancy, At(g, key, k))
  }

  /** How one turn of the read loop goes: the server cannot be used, someone else has the lock, or the lock was
      taken and the session was missing or found there. */
  datatype Attempt = Unusable | Locked | Missing | Found(value: string)

  /** Why the read loop ended. `Undecided` means that `attempts` ran out first. */
  datatype ReadResult = Value(value: string) | Empty | Undecided

  /** The position of the server asked in turn `t`: a turn that met a taken lock is repeated on the same server,
      every other turn moves on. */
  function Position(attempts: seq<Attempt>, t: nat): nat
    requires t <= |attempts|
  {
    if t == 0 then 0
    else if attempts[t - 1].Locked? then Position(attempts, t - 1) else Position(attempts, t - 1) + 1
  }

  /** The sleep before the next try, in microseconds: it doubles with every refusal, up to a second. */
  function Sleep(attempts: seq<Attempt>, t: nat): nat
    requires t <= |attempts|
  {
    if t == 0 then 5000
    else
      var before := Sleep(attempts, t - 1);
      if !attempts[t - 1].Locked? then before else if before * 2 > 1000000 then 1000000 else before * 2
  }

  /** What is left of twice the lock timeout after `t` turns. */
  function Patience(lockTimeout: nat, attempts: seq<Attempt>, t: nat): int
    requires t <= |attempts|
  {
    if t == 0 then lockTimeout * 1000000 * 2
    else Patience(lockTimeout, attempts, t - 1) - if attempts[t - 1].Locked? then Sleep(attempts, t - 1) else 0
  }

  /** How many of the first `t` turns met a taken lock. */
  function Refusals(attempts: seq<Attempt>, t: nat): nat
    requires t <= |attempts|
  {
    if t == 0 then 0 else Refusals(attempts, t - 1) + if attempts[t - 1].Locked? then 1 else 0
  }

  function Doubled(n: nat): nat { if n == 0 then 1 else 2 * Doubled(n - 1) }

  /** The sleep after n refusals: 5 milliseconds, doubled each time, and at most a second. */
  function Nap(n: nat): nat { if n < 8 then 5000 * Doubled(n) else 1000000 }

  function Slept(n: nat): nat { if n == 0 then 0 else Slept(n - 1) + Nap(n - 1) }

  /** Sleeps and patience depend on the number of refusals alone: the read loop goes on until its naps come to twice the
      lock timeout. */
  lemma {:induction false} PatienceExactly(lockTimeout: nat, attempts: seq<Attempt>, t: nat)
    requires t <= |attempts|
    ensures Sleep(attempts, t) == Nap(Refusals(attempts, t))
    ensures Patience(lockTimeout, attempts, t) == 2 * 1000000 * lockTimeout - Slept(Refusals(attempts, t))
    ensures Position(attempts, t) + Refusals(attempts, t) == t
    decreases t
  {
    if t > 0 {
      PatienceExactly(lockTimeout, attempts, t - 1);
      NapDoubles(Refusals(attempts, t - 1));
    }
  }

  lemma NapDoubles(n: nat)
    ensures Nap(n + 1) == if Nap(n) * 2 > 1000000 then 1000000 else Nap(n) * 2
  {
    assert Doubled(1) == 2 && Doubled(2) == 4 && Doubled(3) == 8 && Doubled(4) == 16;
    assert Doubled(5) == 32 && Doubled(6) == 64 && Doubled(7) == 128;
  }

  lemma NextTurn(lockTimeout: nat, attempts: seq<Attempt>, t: nat)
    requires t < |attempts|
    ensures var refused, nap := attempts[t].Locked?, Sleep(attempts, t);
            && Position(attempts, t + 1) == Position(attempts, t) + (if refused then 0 else 1)
            && Sleep(attempts, t + 1)
               == (if !refused then nap else if nap * 2 > 1000000 then 1000000 else nap * 2)
            && Patience(lockTimeout, attempts, t + 1)
               == Patience(lockTimeout, attempts, t) - if refused then nap else 0
  {
  }

  lemma AtStep(g: Config, key: Key, i: nat)
    ensures Server(g, key, i) == Next(g, key, At(g, key, i))
    ensures At(g, key, i + 1) == Skipped(g, key, At(g, key, i))
  {
    hide Next, Skipped;
  }

  ghost predicate GoesOn(g: Config, redundancy: nat, lockTimeout: nat, key: Key, attempts: seq<Attempt>, t: nat)
    requires t <= |attempts|
  {
    Wanted(g, redundancy, At(g, key, Position(attempts, t))) && Patience(lockTimeout, attempts, t) > 0
  }

  lemma GoesOnIff(g: Config, redundancy: nat, lockTimeout: nat, key: Key, attempts: seq<Attempt>, t: nat)
    requires t <= |attempts|
    ensures GoesOn(g, redundancy, lockTimeout, key, attempts, t)
            <==> Wanted(g, redundancy, At(g, key, Position(attempts, t))) && Patience(lockTimeout, attempts, t) > 0
  {
  }

  lemma FirstTurn(g: Config, lockTimeout: nat, key: Key, attempts: seq<Attempt>)
    ensures Position(attempts, 0) == 0 && Sleep(attempts, 0) == 5000 && At(g, key, 0) == Cursor([], 0)
    ensures Patience(lockTimeout, attempts, 0) == lockTimeout * 1000000 * 2
  {
  }

  lemma AllSkipped(g: Config, redundancy: nat, c: Cursor)
    requires |c.skip| == g.numServers
    ensures !Wanted(g, redundancy, c)
  {
  }

  lemma ReachesFirst(g: Config, redundancy: nat, key: Key)
    ensures Reaches(g, redundancy, key, 0)
  {
  }

  lemma ReachesNext(g: Config, redundancy: nat, key: Key, i: nat)
    requires Reaches(g, redundancy, key, i)
    ensures Reaches(g, redundancy, key, i + 1) <==> Wanted(g, redundancy, At(g, key, i + 1))
  {
    hide At, Wanted;
  }

  /** PS_READ_FUNC: `turns` counts the passes of its loop, `asked` lists the servers they went to. */
  method Read(g: Config, redundancy: nat, lockTimeout: nat, key: Key, attempts: seq<Attempt>)
    returns (result: ReadResult, turns: nat, asked: seq<ServerId>)
    ensures |asked| == turns <= |attempts|
    ensures forall t :: 0 <= t < turns ==>
              var i := Position(attempts, t); Reaches(g, redundancy, key, i) && asked[t] == Server(g, key, i)
    ensures result.Value? ==> turns > 0 && attempts[turns - 1] == Found(result.value)
    ensures forall t :: 0 <= t < turns && attempts[t].Found? ==> t == turns - 1 && result.Value?
    ensures forall t :: 1 <= t < turns ==> GoesOn(g, redundancy, lockTimeout, key, attempts, t)
    ensures result.Empty? ==> turns > 0 && !GoesOn(g, redundancy, lockTimeout, key, attempts, turns)
    ensures result.Undecided? ==>
              turns == |attempts| && (turns > 0 ==> GoesOn(g, redundancy, lockTimeout, key, attempts, turns))
  {
    hide *;
    ReachesFirst(g, redundancy, key);
    FirstTurn(g, lockTimeout, key, attempts);
    var cursor, timeout, remaining := Cursor([], 0), 5000, lockTimeout * 1000000 * 2;
    turns, asked := 0, [];
    while turns < |attempts|
      invariant |asked| == turns <= |attempts| && cursor == At(g, key, Position(attempts, turns))
      invariant Reaches(g, redundancy, key, Position(attempts, turns))
      invariant forall t :: 0 <= t < turns ==>
                  && !attempts[t].Found?
                  && var i := Position(attempts, t); Reaches(g, redundancy, key, i) && asked[t] == Server(g, key, i)
      invariant remaining == Patience(lockTimeout, attempts, turns) && timeout == Sleep(attempts, turns)
      invariant forall t :: 1 <= t <= turns ==> GoesOn(g, redundancy, lockTimeout, key, attempts, t)
      decreases |attempts| - turns
    {
      var mmc, after := Next(g, key, cursor), Skipped(g, key, cursor);
      var attempt := attempts[turns];
      ReachesNext(g, redundancy, key, Position(attempts, turns));
      NextTurn(lockTimeout, attempts, turns);
      GoesOnIff(g, redundancy, lockTimeout, key, attempts, turns + 1);
      AtStep(g, key, Position(attempts, turns));
      asked := asked + [mmc];
      turns := turns + 1;
      match attempt {
        case Found(value) =>
          return Value(value), turns, asked;
        case Unusable =>
          cursor := after;
        case Missing =>
          cursor := after;
          if |cursor.skip| == g.numServers && |cursor.skip| < redundancy {
            AllSkipped(g, redundancy, cursor);
            return Empty, turns, asked;
          }
        case Locked =>
          // last_index goes back to where it was, so the same server is asked again
          remaining := remaining - timeout;
          timeout := if timeout * 2 > 1000000 then 1000000 else timeout * 2;
      }
      if !(Wanted(g, redundancy, cursor) && remaining > 0) {
        return Empty, turns, asked;
      }
    }
    result := Undecided;
  }

  /** PS_WRITE_FUNC's loop, cut off after `limit` servers if it has not ended by itself. */
  method Write(g: Config, redundancy: nat, key: Key, limit: nat) returns (visited: seq<ServerId>, ended: bool)
    requires limit > 0
    ensures 0 < |visited| <= limit && (!ended ==> |visited| == limit)
    ensures forall i :: 0 <= i < |visited| ==> visited[i] == Server(g, key, i) && Reaches(g, redundancy, key, i)
    ensures ended <==> !Reaches(g, redundancy, key, |visited|)
  {
    hide Next, Skipped, FindNext, PushUnique, Reaches, Wanted;
    assert Reaches(g, redundancy, key, 0) by { ReachesFirst(g, redundancy, key); }
    var cursor := Cursor([], 0);
    visited := [];
    while |visited| < limit
      invariant |visited| <= limit && cursor == At(g, key, |visited|)
      invariant Reaches(g, redundancy, key, |visited|)
      invariant forall i :: 0 <= i < |visited| ==> visited[i] == Server(g, key, i) && Reaches(g, redundancy, key, i)
      decreases limit - |visited|
    {
      var mmc := Next(g, key, cursor);
      ReachesNext(g, redundancy, key, |visited|);
      cursor := Skipped(g, key, cursor);
      visited := visited + [mmc];
      if !Wanted(g, redundancy, cursor) {
        return visited, true;
      }
    }
    return visited, false;
  }

  /** The write loop ends at one place only, and every position that a read gets to lies before it. */
  lemma ReadBeforeEnd(g: Config, redundancy: nat, key: Key, end: nat, i: nat)
    requires !Reaches(g, redundancy, key, end) && Reaches(g, redundancy, key, i)
    ensures i < end
  {
    hide At, Wanted;
  }

  /** The cursor has skipped exactly the servers of the probes made, each once. */
  ghost predicate Exact(g: Config, key: Key, c: Cursor) {
    && NoDuplicates(c.skip) && (forall s :: s in c.skip <==> s in Seen(g, key, {}, c.index))
    && |c.skip| == |Seen(g, key, {}, c.index)|
  }

  lemma SkippedExact(g: Config, key: Key, c: Cursor)
    requires Exact(g, key, c)
    ensures Exact(g, key, Skipped(g, key, c)) && Skipped(g, key, c).index > c.index
  {
    SearchStep(g, key, {}, c.skip, c.index);
    hide Seen, NoDuplicates, IsNew;
  }

  lemma StartExact(g: Config, key: Key)
    ensures At(g, key, 0) == Cursor([], 0) && Exact(g, key, At(g, key, 0))
  {
  }

  lemma {:induction false} AtExact(g: Config, key: Key, i: nat)
    ensures Exact(g, key, At(g, key, i)) && At(g, key, i).index >= i
  {
    hide *;
    StartExact(g, key);
    if i > 0 {
      AtExact(g, key, i - 1);
      AtStep(g, key, i - 1);
      SkippedExact(g, key, At(g, key, i - 1));
    }
  }

  /** As many servers as the redundancy asks for, or as there are. */
  ghost predicate Suffices(g: Config, redundancy: nat, key: Key, n: nat) {
    |Seen(g, key, {}, n)| >= redundancy || |Seen(g, key, {}, n)| >= g.numServers
  }

  /** The write loop ends at all if and only if the key's probes sooner or later name as many servers as the redundancy
      asks for or as there are. */
  lemma WriteEndsExactly(g: Config, redundancy: nat, key: Key)
    ensures (exists i: nat :: !Reaches(g, redundancy, key, i))
            <==> exists n: nat :: Suffices(g, redundancy, key, n)
  {
    hide *;
    if i: nat :| !Reaches(g, redundancy, key, i) {
      var n := WhenEnded(g, redundancy, key, i);
    }
    if n: nat :| Suffices(g, redundancy, key, n) {
      EndedBy(g, redundancy, key, n);
    }
  }

  /** A key whose probes all name one server of two: a session to be written to both is written to that one forever. */
  lemma NeverEnds(i: nat)
    ensures var g := Config(2, true, 20, (k: Key) => 0, (k: Key, i: nat) => 0); ConfigOk(g) && Reaches(g, 2, "k", i)
  {
    var g := Config(2, true, 20, (k: Key) => 0, (k: Key, i: nat) => 0);
    if !Reaches(g, 2, "k", i) {
      var n := WhenEnded(g, 2, "k", i);
      OneSeen(g, "k", n);
    }
  }

  lemma {:induction false} OneSeen(g: Config, key: Key, n: nat)
    requires forall i: nat :: g.probe(key, i) == 0
    ensures |Seen(g, key, {}, n)| <= 1 && forall t :: t in Seen(g, key, {}, n) ==> t == 0
  {
    if n > 0 {
      OneSeen(g, key, n - 1);
      assert Seen(g, key, {}, n) == {0};
    }
  }

  lemma WhenEnded(g: Config, redundancy: nat, key: Key, i: nat) returns (n: nat)
    requires !Reaches(g, redundancy, key, i)
    ensures Suffices(g, redundancy, key, n)
  {
    var k :| 1 <= k <= i && !Wanted(g, redundancy, At(g, key, k));
    n := At(g, key, k).index;
    AtExact(g, key, k);
    hide At, Seen;
  }

  lemma EndedBy(g: Config, redundancy: nat, key: Key, n: nat)
    requires Suffices(g, redundancy, key, n)
    ensures !Reaches(g, redundancy, key, n + 1)
  {
    AtExact(g, key, n + 1);
    SeenGrows(g, key, {}, n, At(g, key, n + 1).index);
    hide At, Seen, NoDuplicates;
    assert !Wanted(g, redundancy, At(g, key, n + 1));
  }

  /** A read and the write after it, with the same servers up: what the read asks is a prefix of what the write
      visits, so each lock that the read took is on a server whose lock the write resets. */
  method ReadThenWrite(g: Config, redundancy: nat, lockTimeout: nat, key: Key, attempts: seq<Attempt>, limit: nat)
    returns (asked: seq<ServerId>, visited: seq<ServerId>, ended: bool)
    requires limit > 0
    ensures |asked| <= |attempts|
    ensures ended <==> !Reaches(g, redundancy, key, limit)
    ensures ended ==> forall t :: 0 <= t < |asked| ==>
              Position(attempts, t) < |visited| && asked[t] == visited[Position(attempts, t)]
    ensures ended ==> forall t :: 0 <= t < |asked| ==> asked[t] in visited
  {
    var result, turns;
    result, turns, asked := Read(g, redundancy, lockTimeout, key, attempts);
    visited, ended := Write(g, redundancy, key, limit);
    if ended {
      ReachesNoMore(g, redundancy, key, |visited|, limit);
      forall t | 0 <= t < |asked| ensures Position(attempts, t) < |visited| {
        ReadBeforeEnd(g, redundancy, key, |visited|, Position(attempts, t));
      }
    }
  }

  lemma ReachesNoMore(g: Config, redundancy: nat, key: Key, i: nat, j: nat)
    requires i <= j && !Reaches(g, redundancy, key, i)
    ensures !Reaches(g, redundancy, key, j)
  {
    hide At, Wanted;
  }

  /** The next n servers from a cursor on. */
  function Following(g: Config, key: Key, c: Cursor, n: nat): (r: seq<ServerId>)
    ensures |r| == n
    decreases n
  {
    if n == 0 then [] else [Next(g, key, c)] + Following(g, key, Skipped(g, key, c), n - 1)
  }

  lemma {:induction false} FollowingDistinct(g: Config, key: Key, c: Cursor, n: nat)
    requires Exact(g, key, c)
    ensures NoDuplicates(c.skip + Following(g, key, c, n)) <==> Enough(g, key, {}, c.index, n)
    decreases n
  {
    var all := Following(g, key, c, n);
    if n == 0 {
      NoneNeeded(g, key, {}, c.index);
      assert c.skip + all == c.skip;
    } else {
      var (mmc, d) := (Next(g, key, c), Skipped(g, key, c));
      var more := Following(g, key, d, n - 1);
      NextIs(g, key, c);
      SkippedExact(g, key, c);
      assert NoDuplicates(c.skip) && forall s :: s in c.skip <==> s in Seen(g, key, {}, c.index);
      hide *;
      EnoughStep(g, key, {}, c.skip, c.index, n);
      Associative(c.skip, [mmc], more);
      if mmc in c.skip {
        TwiceIn(c.skip, mmc, more);
      } else {
        FollowingDistinct(g, key, d, n - 1);
      }
    }
  }

  lemma NextIs(g: Config, key: Key, c: Cursor)
    ensures var (mmc, last) := FindNext(g, key, c.skip, c.index);
            && Next(g, key, c) == mmc && Skipped(g, key, c).index == last
            && Skipped(g, key, c).skip == if mmc in c.skip then c.skip else c.skip + [mmc]
  {
    hide FindNext;
  }

  lemma {:induction false} FollowingAt(g: Config, key: Key, from: nat, n: nat, i: nat)
    requires i < n
    ensures Following(g, key, At(g, key, from), n)[i] == Server(g, key, from + i)
    decreases n
  {
    hide Next, Skipped, At;
    AtStep(g, key, from);
    if i > 0 { FollowingAt(g, key, from + 1, n - 1, i - 1); }
  }

  /** The first n servers of a key's sequence are pairwise distinct if and only if the probes name that many. */
  lemma VisitsDistinct(g: Config, key: Key, n: nat)
    ensures (forall i, j :: 0 <= i < j < n ==> Server(g, key, i) != Server(g, key, j)) <==> Enough(g, key, {}, 0, n)
  {
    hide *;
    StartExact(g, key);
    FirstDistinct(g, key, Following(g, key, Cursor([], 0), n), n);
    FollowingAll(g, key, n);
    SameVisits(g, key, Following(g, key, Cursor([], 0), n));
  }

  lemma FirstDistinct(g: Config, key: Key, all: seq<ServerId>, n: nat)
    requires all == Following(g, key, Cursor([], 0), n)
    ensures NoDuplicates(all) <==> Enough(g, key, {}, 0, n)
  {
    hide *;
    StartExact(g, key);
    FollowingDistinct(g, key, Cursor([], 0), n);
    assert [] + all == all;
  }

  lemma FollowingAll(g: Config, key: Key, n: nat)
    ensures forall i :: 0 <= i < n ==> Following(g, key, Cursor([], 0), n)[i] == Server(g, key, i)
  {
    hide *;
    StartExact(g, key);
    forall i | 0 <= i < n ensures Following(g, key, Cursor([], 0), n)[i] == Server(g, key, i) {
      FollowingAt(g, key, 0, n, i);
    }
  }

  lemma SameVisits(g: Config, key: Key, all: seq<ServerId>)
    requires forall i :: 0 <= i < |all| ==> all[i] == Server(g, key, i)
    ensures NoDuplicates(all)
            <==> forall i, j :: 0 <= i < j < |all| ==> Server(g, key, i) != Server(g, key, j)
  {
    hide Server;
    if NoDuplicates(all) {
      forall i, j | 0 <= i < j < |all| ensures Server(g, key, i) != Server(g, key, j) { assert all[i] != all[j]; }
    } else {
      var i, j :| 0 <= i < j < |all| && all[i] == all[j];
      assert Server(g, key, i) == Server(g, key, j);
    }
  }
}
