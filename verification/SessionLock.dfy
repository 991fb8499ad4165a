/** The session lock of src/memcache_session.c: clients and servers as a transition system for one session key. Every
    server command is one atomic step; a client's commands to one server run in order, those to different servers in
    any order. Every client visits the servers 0, 1, 2, ... of the key's failover sequence, all of them reachable. */
module SessionLock {
  import opened Basics
  import opened Wrappers

  type Client = nat

  /** With the ASCII protocol `incr` misses on an absent lock; with the binary protocol it stores the default 1. */
  datatype Protocol = Ascii | Binary

  /** What `incr` and `add` answered. */
  datatype Incr = NotAsked | Missing | Counted(value: nat)

  /** A reading client at server `at` went past all earlier servers, locking each. `asked` counts the commands that
      were answered: incr, add, get. A client in its critical section, or writing, locked the first `locks` servers.
      A writing client has `stage[j]` 0 before its `set data`, 1 before its `set lock 0`, 2 after both. */
  datatype Phase<V> =
    | Idle
    | Reading(at: ServerId, asked: nat, incr: Incr, added: bool, fetched: Option<V>)
    | Critical(locks: nat, read: Option<V>)
    | Writing(locks: nat, read: Option<V>, write: V, stage: seq<nat>)

  datatype Item<V> = Item(lock: Option<nat>, data: Option<V>)

  /** `history` records each critical section whose data reached server 0: what it read and what it wrote. */
  datatype World<V> = World(
    items: seq<Item<V>>,
    clients: seq<Phase<V>>,
    history: seq<(Option<V>, V)>)

  datatype Action<V> =
    | Start
    | DoIncr
    | DoAdd
    | DoGet
    | Decide
    | GiveUp
    | Commit(write: V)
    | StoreData(at: ServerId)
    | ResetLock(at: ServerId)
    | Finish

  predicate Acquired<V>(p: Phase<V>)
    requires p.Reading?
  {
    p.incr == Counted(1) || p.added
  }

  function Put<V>(w: World<V>, c: Client, p: Phase<V>): World<V>
    requires c < |w.clients|
  {
    w.(clients := w.clients[c := p])
  }

  function PutItem<V>(w: World<V>, j: ServerId, i: Item<V>): World<V>
    requires j < |w.items|
  {
    w.(items := w.items[j := i])
  }

  function Zeros(n: nat): seq<nat> { seq(n, _ => 0) }

  /** One step of client `c`, or None if the action is not the client's next one. */
  function Step<V>(proto: Protocol, w: World<V>, c: Client, a: Action<V>): Option<World<V>> {
    if !(c < |w.clients|) then None else
    var p := w.clients[c];
    match a
    case Start =>
      if p.Idle? then Some(Put(w, c, Reading(0, 0, NotAsked, false, None))) else None
    case DoIncr =>
      if p.Reading? && p.asked == 0 && p.at < |w.items| then
        var i := w.items[p.at];
        var answer := match i.lock
                      case Some(n) => Counted(n + 1)
                      case None => if proto.Binary? then Counted(1) else Missing;
        var after := if answer.Counted? then Some(answer.value) else None;
        Some(Put(PutItem(w, p.at, i.(lock := after)), c, p.(asked := 1, incr := answer)))
      else None
    case DoAdd =>
      if p.Reading? && p.asked == 1 && p.at < |w.items| then
        var i := w.items[p.at];
        if i.lock.None? then Some(Put(PutItem(w, p.at, i.(lock := Some(1))), c, p.(asked := 2, added := true)))
        else Some(Put(w, c, p.(asked := 2)))
      else None
    case DoGet =>
      if p.Reading? && p.asked == 2 && p.at < |w.items| then
        Some(Put(w, c, p.(asked := 3, fetched := w.items[p.at].data)))
      else None
    case Decide =>
      if p.Reading? && p.asked == 3 then
        if !Acquired(p) then Some(Put(w, c, Reading(p.at, 0, NotAsked, false, None)))
        else if p.fetched.Some? || p.at + 1 >= |w.items| then Some(Put(w, c, Critical(p.at + 1, p.fetched)))
        else Some(Put(w, c, Reading(p.at + 1, 0, NotAsked, false, None)))
      else None
    case GiveUp =>
      if p.Reading? && p.asked == 3 && !Acquired(p) then Some(Put(w, c, Idle)) else None
    case Commit(v) =>
      if p.Critical? then Some(Put(w, c, Writing(p.locks, p.read, v, Zeros(|w.items|)))) else None
    case StoreData(j) =>
      if p.Writing? && j < |p.stage| && j < |w.items| && p.stage[j] == 0 then
        var w' := PutItem(w, j, w.items[j].(data := Some(p.write)));
        var w'' := if j == 0 then w'.(history := w.history + [(p.read, p.write)]) else w';
        Some(Put(w'', c, p.(stage := p.stage[j := 1])))
      else None
    case ResetLock(j) =>
      if p.Writing? && j < |p.stage| && j < |w.items| && p.stage[j] == 1 then
        Some(Put(PutItem(w, j, w.items[j].(lock := Some(0))), c, p.(stage := p.stage[j := 2])))
      else None
    case Finish =>
      if p.Writing? && (forall j :: 0 <= j < |p.stage| ==> p.stage[j] == 2) then Some(Put(w, c, Idle)) else None
  }

  // ---------------------------------------------------------------------------------------------------------
  // The invariant

  predicate Positive(lock: Option<nat>) { lock.Some? && lock.value >= 1 }

  /** The client holds server j's lock: its incr returned 1 or its add succeeded, and it has not reset it yet. */
  predicate Holds<V>(p: Phase<V>, j: ServerId) {
    match p
    case Idle => false
    case Reading(at, _, _, _, _) => j < at || (j == at && Acquired(p))
    case Critical(locks, _) => j < locks
    case Writing(locks, _, _, stage) => j < locks && (j < |stage| ==> stage[j] < 2)
  }

  ghost predicate HeldBy<V>(w: World<V>, j: ServerId, c: Client) {
    c < |w.clients| && Holds(w.clients[c], j)
  }

  /** The client went past server 0 because the session did not exist yet. */
  predicate Pioneer<V>(p: Phase<V>) {
    match p
    case Idle => false
    case Reading(at, _, _, _, _) => at > 0
    case Critical(locks, _) => locks > 1
    case Writing(locks, _, _, _) => locks > 1
  }

  /** Each section read what the one before it wrote, the first one nothing. */
  ghost predicate Chain<V>(h: seq<(Option<V>, V)>) {
    && (h != [] ==> h[0].0 == None)
    && (forall i, j :: 0 <= i && j == i + 1 && j < |h| ==> h[j].0 == Some(h[i].1))
  }

  function Latest<V>(h: seq<(Option<V>, V)>): Option<V> {
    if h == [] then None else Some(h[|h| - 1].1)
  }

  ghost predicate Fresh<V>(w: World<V>, from: ServerId) {
    && (forall j :: 0 <= j < |w.items| ==> w.items[j].data == None)
    && (forall j :: from <= j < |w.items| ==> w.items[j].lock == None)
  }

  ghost predicate ReadingOk<V>(w: World<V>, p: Phase<V>)
    requires p.Reading?
  {
    && p.at < |w.items| && p.asked <= 3
    && (p.asked == 0 ==> p.incr.NotAsked? && !p.added)
    && (p.asked <= 1 ==> !p.added)
    && (p.asked == 3 && Holds(p, 0) ==> p.fetched == w.items[0].data)
    && (Holds(p, 0) && w.history == [] ==> Fresh(w, p.at + 1))
    && (p.at > 0 ==>
          && w.history == []
          && (p.asked == 0 || (p.incr.Missing? && !p.added) ==> w.items[p.at].lock == None)
          && (p.asked >= 1 ==> p.incr == Counted(1) || p.incr.Missing?)
          && (p.asked >= 2 ==> Acquired(p)))
  }

  ghost predicate ClientOk<V>(w: World<V>, p: Phase<V>)
    requires |w.items| > 0
  {
    match p
    case Idle => true
    case Reading(_, _, _, _, _) => ReadingOk(w, p)
    case Critical(locks, read) => 0 < locks <= |w.items| && read == w.items[0].data
    case Writing(locks, read, write, stage) =>
      && 0 < locks <= |w.items| == |stage| && (forall j :: 0 <= j < |stage| ==> stage[j] <= 2)
      && (stage[0] == 0 ==> read == w.items[0].data)
      && (stage[0] == 1 ==> w.items[0].data == Some(write))
      && (stage[0] >= 1 ==> w.history != [])
  }

  /** At most one client holds a lock, and a positive lock is held by someone. */
  ghost predicate LockOk<V>(w: World<V>, j: ServerId)
    requires j < |w.items|
  {
    && (forall c: Client, d: Client :: HeldBy(w, j, c) && HeldBy(w, j, d) ==> c == d)
    && (Positive(w.items[j].lock) ==> exists c: Client :: HeldBy(w, j, c))
  }

  ghost predicate Inv<V>(w: World<V>) {
    && |w.items| > 0
    && (forall c :: 0 <= c < |w.clients| ==> ClientOk(w, w.clients[c]))
    && (forall j :: 0 <= j < |w.items| ==> LockOk(w, j))
    && (forall c: Client :: HeldBy(w, 0, c) ==> Positive(w.items[0].lock))
    && Chain(w.history) && w.items[0].data == Latest(w.history)
    && (w.history == [] && !Positive(w.items[0].lock) ==> Fresh(w, 1))
    && OnePioneer(w)
  }

  ghost predicate OnePioneer<V>(w: World<V>) {
    forall c, d :: 0 <= c < |w.clients| && 0 <= d < |w.clients| && Pioneer(w.clients[c]) && Pioneer(w.clients[d])
      ==> c == d
  }

  // ---------------------------------------------------------------------------------------------------------
  // Every step keeps it

  /** Only client `c` moved. */
  ghost predicate Moved<V>(w: World<V>, w': World<V>, c: Client) {
    c < |w.clients| && |w'.clients| == |w.clients| && |w'.items| == |w.items|
    && forall d :: 0 <= d < |w.clients| && d != c ==> w'.clients[d] == w.clients[d]
  }

  lemma LockKept<V>(w: World<V>, w': World<V>, c: Client, j: ServerId)
    requires Moved(w, w', c) && j < |w.items| && LockOk(w, j)
    requires Holds(w'.clients[c], j) == Holds(w.clients[c], j)
    requires Positive(w'.items[j].lock) ==> Positive(w.items[j].lock) || Holds(w.clients[c], j)
    ensures LockOk(w', j)
  {
    assert forall d: Client :: HeldBy(w', j, d) <==> HeldBy(w, j, d);
    if Positive(w'.items[j].lock) {
      if Holds(w.clients[c], j) {
        assert HeldBy(w', j, c);
      } else {
        var d: Client :| HeldBy(w, j, d);
        assert HeldBy(w', j, d);
      }
    }
  }

  lemma OtherHolds<V>(w: World<V>, w': World<V>, c: Client, j: ServerId, d: Client)
    requires Moved(w, w', c) && HeldBy(w', j, d) && d != c
    ensures HeldBy(w, j, d)
  {
  }

  lemma LockTaken<V>(w: World<V>, w': World<V>, c: Client, j: ServerId)
    requires Moved(w, w', c) && j < |w.items|
    requires forall d: Client :: d != c ==> !HeldBy(w, j, d)
    requires Holds(w'.clients[c], j)
    ensures LockOk(w', j)
  {
    assert HeldBy(w', j, c);
    forall d: Client | HeldBy(w', j, d) ensures d == c {
      if d != c { OtherHolds(w, w', c, j, d); }
    }
  }

  lemma LockReset<V>(w: World<V>, w': World<V>, c: Client, j: ServerId)
    requires Moved(w, w', c) && j < |w.items| && LockOk(w, j)
    requires !Holds(w'.clients[c], j) && !Positive(w'.items[j].lock)
    ensures LockOk(w', j)
  {
    assert forall d: Client :: HeldBy(w', j, d) ==> HeldBy(w, j, d);
  }

  /** What the invariant says about client `c` and the others, for the client that is about to move. */
  lemma Alone<V>(w: World<V>, c: Client)
    requires Inv(w) && c < |w.clients|
    ensures Holds(w.clients[c], 0) ==>
              Positive(w.items[0].lock) && forall d: Client :: d != c ==> !HeldBy(w, 0, d)
    ensures !Positive(w.items[0].lock) ==> forall d: Client :: !HeldBy(w, 0, d)
    ensures forall j: ServerId, d: Client :: j > 0 && HeldBy(w, j, d) ==> Pioneer(w.clients[d])
    ensures Pioneer(w.clients[c]) ==> forall j: ServerId, d: Client :: j > 0 && d != c ==> !HeldBy(w, j, d)
  {
    assert LockOk(w, 0);
    if Holds(w.clients[c], 0) { assert HeldBy(w, 0, c); }
  }

  lemma PioneerOk<V>(w: World<V>, c: Client)
    requires Inv(w) && c < |w.clients| && w.clients[c].Reading? && w.clients[c].at > 0
    ensures Holds(w.clients[c], 0) && Pioneer(w.clients[c]) && Fresh(w, w.clients[c].at + 1)
    ensures w.clients[c].asked >= 2 ==> Acquired(w.clients[c])
  {
    assert ClientOk(w, w.clients[c]);
  }

  lemma StartKeeps<V>(proto: Protocol, w: World<V>, c: Client)
    requires Inv(w) && Step(proto, w, c, Start).Some?
    ensures Inv(Step(proto, w, c, Start).value)
  {
    var w' := Step(proto, w, c, Start).value;
    forall j | 0 <= j < |w.items| ensures LockOk(w', j) { LockKept(w, w', c, j); }
    assert forall d: Client :: HeldBy(w', 0, d) ==> HeldBy(w, 0, d);
  }

  lemma IncrLocks<V>(proto: Protocol, w: World<V>, c: Client, j: ServerId)
    requires Inv(w) && Step(proto, w, c, DoIncr).Some? && j < |w.items|
    ensures LockOk(Step(proto, w, c, DoIncr).value, j)
  {
    var p, w' := w.clients[c], Step(proto, w, c, DoIncr).value;
    Alone(w, c);
    assert LockOk(w, j) && ClientOk(w, p);
    if j == p.at && Acquired(w'.clients[c]) {
      if j > 0 { PioneerOk(w, c); }
      LockTaken(w, w', c, j);
    } else {
      LockKept(w, w', c, j);
    }
  }

  lemma IncrKeeps<V>(proto: Protocol, w: World<V>, c: Client)
    requires Inv(w) && Step(proto, w, c, DoIncr).Some?
    ensures Inv(Step(proto, w, c, DoIncr).value)
  {
    var p, w' := w.clients[c], Step(proto, w, c, DoIncr).value;
    forall j | 0 <= j < |w.items| ensures LockOk(w', j) { IncrLocks(proto, w, c, j); }
    Alone(w, c);
    assert ClientOk(w, p);
    if p.at > 0 { PioneerOk(w, c); }
    forall d | 0 <= d < |w.clients| ensures ClientOk(w', w'.clients[d]) {
      assert ClientOk(w, w.clients[d]);
      assert HeldBy(w, 0, d) <==> Holds(w.clients[d], 0);
    }
    forall d: Client | HeldBy(w', 0, d) ensures Positive(w'.items[0].lock) { assert d != c ==> HeldBy(w, 0, d); }
  }

  lemma AddLocks<V>(proto: Protocol, w: World<V>, c: Client, j: ServerId)
    requires Inv(w) && Step(proto, w, c, DoAdd).Some? && j < |w.items|
    ensures LockOk(Step(proto, w, c, DoAdd).value, j)
  {
    var p, w' := w.clients[c], Step(proto, w, c, DoAdd).value;
    Alone(w, c);
    assert LockOk(w, j) && ClientOk(w, p);
    if j == p.at && w.items[j].lock.None? {
      if j > 0 { PioneerOk(w, c); }
      LockTaken(w, w', c, j);
    } else {
      LockKept(w, w', c, j);
    }
  }

  lemma AddKeeps<V>(proto: Protocol, w: World<V>, c: Client)
    requires Inv(w) && Step(proto, w, c, DoAdd).Some?
    ensures Inv(Step(proto, w, c, DoAdd).value)
  {
    var p, w' := w.clients[c], Step(proto, w, c, DoAdd).value;
    forall j | 0 <= j < |w.items| ensures LockOk(w', j) { AddLocks(proto, w, c, j); }
    Alone(w, c);
    assert ClientOk(w, p);
    if p.at > 0 { PioneerOk(w, c); }
    forall d | 0 <= d < |w.clients| ensures ClientOk(w', w'.clients[d]) {
      assert ClientOk(w, w.clients[d]);
      assert HeldBy(w, 0, d) <==> Holds(w.clients[d], 0);
    }
    forall d: Client | HeldBy(w', 0, d) ensures Positive(w'.items[0].lock) { assert d != c ==> HeldBy(w, 0, d); }
  }

  lemma GetKeeps<V>(proto: Protocol, w: World<V>, c: Client)
    requires Inv(w) && Step(proto, w, c, DoGet).Some?
    ensures Inv(Step(proto, w, c, DoGet).value)
  {
    var p, w' := w.clients[c], Step(proto, w, c, DoGet).value;
    assert ClientOk(w, p);
    Alone(w, c);
    if p.at > 0 { PioneerOk(w, c); }
    forall j | 0 <= j < |w.items| ensures LockOk(w', j) { LockKept(w, w', c, j); }
    forall d | 0 <= d < |w.clients| ensures ClientOk(w', w'.clients[d]) {
      assert ClientOk(w, w.clients[d]);
    }
    forall d: Client | HeldBy(w', 0, d) ensures Positive(w'.items[0].lock) { assert HeldBy(w, 0, d); }
  }

  lemma DecideKeeps<V>(proto: Protocol, w: World<V>, c: Client)
    requires Inv(w) && Step(proto, w, c, Decide).Some?
    ensures Inv(Step(proto, w, c, Decide).value)
  {
    var p, w' := w.clients[c], Step(proto, w, c, Decide).value;
    assert ClientOk(w, p);
    Alone(w, c);
    if p.at > 0 { PioneerOk(w, c); }
    forall j | 0 <= j < |w.items| ensures LockOk(w', j) { LockKept(w, w', c, j); }
    forall d: Client | HeldBy(w', 0, d) ensures Positive(w'.items[0].lock) { assert HeldBy(w, 0, d); }
    hide LockOk, OnePioneer, Chain, Positive, HeldBy;
    forall d | 0 <= d < |w.clients| ensures ClientOk(w', w'.clients[d]) {
      assert ClientOk(w, w.clients[d]);
    }
    DecidePioneer(proto, w, c);
  }

  /** A client becomes the pioneer only while the session does not exist, and then the other one would hold
      server 0's lock too. */
  lemma DecidePioneer<V>(proto: Protocol, w: World<V>, c: Client)
    requires Inv(w) && Step(proto, w, c, Decide).Some?
    ensures OnePioneer(Step(proto, w, c, Decide).value)
  {
    var p, w' := w.clients[c], Step(proto, w, c, Decide).value;
    assert ClientOk(w, p);
    Alone(w, c);
    forall d | 0 <= d < |w.clients| && d != c && Pioneer(w'.clients[d]) && Pioneer(w'.clients[c]) ensures false {
      assert ClientOk(w, w.clients[d]);
      if !Pioneer(p) {
        assert w.history == [] && HeldBy(w, 0, c);
        assert HeldBy(w, 0, d);
      }
    }
  }

  lemma GiveUpKeeps<V>(proto: Protocol, w: World<V>, c: Client)
    requires Inv(w) && Step(proto, w, c, GiveUp).Some?
    ensures Inv(Step(proto, w, c, GiveUp).value)
  {
    var p, w' := w.clients[c], Step(proto, w, c, GiveUp).value;
    assert ClientOk(w, p);
    if p.at > 0 { PioneerOk(w, c); }
    forall j | 0 <= j < |w.items| ensures LockOk(w', j) { LockKept(w, w', c, j); }
    forall d: Client | HeldBy(w', 0, d) ensures Positive(w'.items[0].lock) { assert HeldBy(w, 0, d); }
  }

  lemma CommitKeeps<V>(proto: Protocol, w: World<V>, c: Client, v: V)
    requires Inv(w) && Step(proto, w, c, Commit(v)).Some?
    ensures Inv(Step(proto, w, c, Commit(v)).value)
  {
    var p, w' := w.clients[c], Step(proto, w, c, Commit(v)).value;
    assert ClientOk(w, p);
    forall j | 0 <= j < |w.items| ensures LockOk(w', j) { LockKept(w, w', c, j); }
    forall d | 0 <= d < |w.clients| ensures ClientOk(w', w'.clients[d]) {
      assert ClientOk(w, w.clients[d]);
    }
    forall d: Client | HeldBy(w', 0, d) ensures Positive(w'.items[0].lock) { assert HeldBy(w, 0, d); }
  }

  lemma ChainGrows<V>(h: seq<(Option<V>, V)>, read: Option<V>, write: V)
    requires Chain(h)
    ensures read == Latest(h) ==> Chain(h + [(read, write)])
    ensures Latest(h + [(read, write)]) == Some(write)
  {
  }

  lemma StoreKeeps<V>(proto: Protocol, w: World<V>, c: Client, at: ServerId)
    requires Inv(w) && Step(proto, w, c, StoreData(at)).Some?
    ensures Inv(Step(proto, w, c, StoreData(at)).value)
  {
    var p, w' := w.clients[c], Step(proto, w, c, StoreData(at)).value;
    assert ClientOk(w, p);
    Alone(w, c);
    ChainGrows(w.history, p.read, p.write);
    if at == 0 {
      assert w'.history == w.history + [(p.read, p.write)] && p.read == Latest(w.history);
      assert w'.items[0].data == Some(p.write);
    } else {
      assert w'.history == w.history && w'.items[0] == w.items[0];
    }
    forall j | 0 <= j < |w.items| ensures LockOk(w', j) { LockKept(w, w', c, j); }
    forall d | 0 <= d < |w.clients| ensures ClientOk(w', w'.clients[d]) {
      assert ClientOk(w, w.clients[d]);
      assert HeldBy(w, 0, d) <==> Holds(w.clients[d], 0);
    }
    forall d: Client | HeldBy(w', 0, d) ensures Positive(w'.items[0].lock) { assert HeldBy(w, 0, d); }
  }

  lemma ResetKeeps<V>(proto: Protocol, w: World<V>, c: Client, at: ServerId)
    requires Inv(w) && Step(proto, w, c, ResetLock(at)).Some?
    ensures Inv(Step(proto, w, c, ResetLock(at)).value)
  {
    var p, w' := w.clients[c], Step(proto, w, c, ResetLock(at)).value;
    assert ClientOk(w, p);
    Alone(w, c);
    forall j | 0 <= j < |w.items| ensures LockOk(w', j) {
      if j == at { LockReset(w, w', c, j); } else { LockKept(w, w', c, j); }
    }
    forall d | 0 <= d < |w.clients| ensures ClientOk(w', w'.clients[d]) {
      assert ClientOk(w, w.clients[d]);
      assert HeldBy(w, 0, d) <==> Holds(w.clients[d], 0);
    }
    forall d: Client | HeldBy(w', 0, d) ensures Positive(w'.items[0].lock) { assert HeldBy(w, 0, d); }
  }

  lemma FinishKeeps<V>(proto: Protocol, w: World<V>, c: Client)
    requires Inv(w) && Step(proto, w, c, Finish).Some?
    ensures Inv(Step(proto, w, c, Finish).value)
  {
    var p, w' := w.clients[c], Step(proto, w, c, Finish).value;
    assert ClientOk(w, p);
    forall j | 0 <= j < |w.items| ensures LockOk(w', j) { LockKept(w, w', c, j); }
    forall d: Client | HeldBy(w', 0, d) ensures Positive(w'.items[0].lock) { assert HeldBy(w, 0, d); }
  }

  lemma StepKeepsInv<V>(proto: Protocol, w: World<V>, c: Client, a: Action<V>)
    requires Inv(w) && Step(proto, w, c, a).Some?
    ensures Inv(Step(proto, w, c, a).value)
  {
    hide Inv, Step;
    match a
    case Start => StartKeeps(proto, w, c);
    case DoIncr => IncrKeeps(proto, w, c);
    case DoAdd => AddKeeps(proto, w, c);
    case DoGet => GetKeeps(proto, w, c);
    case Decide => DecideKeeps(proto, w, c);
    case GiveUp => GiveUpKeeps(proto, w, c);
    case Commit(v) => CommitKeeps(proto, w, c, v);
    case StoreData(j) => StoreKeeps(proto, w, c, j);
    case ResetLock(j) => ResetKeeps(proto, w, c, j);
    case Finish => FinishKeeps(proto, w, c);
  }

  // ---------------------------------------------------------------------------------------------------------
  // Runs

  /** `clients` clients of one session that no server knows yet, with `servers` servers in reach of each. */
  function Begin<V>(servers: nat, clients: nat): World<V> {
    World(seq(servers, _ => Item(None, None)), seq(clients, _ => Idle), [])
  }

  /** An interleaving: which client moves, and how. Each client speaks its own protocol. */
  function Exec<V>(protos: Client -> Protocol, w: World<V>, script: seq<(Client, Action<V>)>): Option<World<V>>
    decreases |script|
  {
    if script == [] then Some(w)
    else
      match Step(protos(script[0].0), w, script[0].0, script[0].1)
      case None => None
      case Some(w') => Exec(protos, w', script[1..])
  }

  lemma BeginOk<V>(servers: nat, clients: nat)
    requires servers > 0
    ensures Inv(Begin<V>(servers, clients))
  {
    var w := Begin<V>(servers, clients);
    assert forall j: ServerId, c: Client :: !HeldBy(w, j, c);
  }

  lemma {:induction false} ExecKeepsInv<V>(protos: Client -> Protocol, w: World<V>, script: seq<(Client, Action<V>)>)
    requires Inv(w) && Exec(protos, w, script).Some?
    ensures Inv(Exec(protos, w, script).value)
    decreases |script|
  {
    if script != [] {
      var (c, a) := script[0];
      StepKeepsInv(protos(c), w, c, a);
      ExecKeepsInv(protos, Step(protos(c), w, c, a).value, script[1..]);
    }
  }

  /** In every interleaving, whatever protocols the clients speak: on server 0 the lock is at least 1 iff exactly one
      client holds it, and absent or 0 iff nobody does. On every server no two clients hold the lock at once, and a
      lock that is at least 1 is held. */
  lemma MutualExclusion<V>(protos: Client -> Protocol, servers: nat, clients: nat, script: seq<(Client, Action<V>)>)
    requires servers > 0 && Exec(protos, Begin(servers, clients), script).Some?
    ensures var w := Exec(protos, Begin(servers, clients), script).value;
            && |w.items| > 0
            && (Positive(w.items[0].lock) <==> exists c: Client :: HeldBy(w, 0, c))
            && (forall j :: 0 <= j < |w.items| ==> LockOk(w, j))
  {
    BeginOk<V>(servers, clients);
    ExecKeepsInv(protos, Begin(servers, clients), script);
    var w := Exec(protos, Begin(servers, clients), script).value;
    assert LockOk(w, 0);
  }

  predicate InSection<V>(p: Phase<V>) {
    p.Critical? || (p.Writing? && (|p.stage| > 0 ==> p.stage[0] < 2))
  }

  /** Server 0's lock alone keeps critical sections apart, and each section works on what the one before it left:
      what it read is the last value written, until its own write is on server 0. */
  lemma NoLostUpdate<V>(protos: Client -> Protocol, servers: nat, clients: nat, script: seq<(Client, Action<V>)>)
    requires servers > 0 && Exec(protos, Begin(servers, clients), script).Some?
    ensures var w := Exec(protos, Begin(servers, clients), script).value;
            && |w.items| > 0
            && (forall c, d | 0 <= c < |w.clients| && 0 <= d < |w.clients| ::
                  InSection(w.clients[c]) && InSection(w.clients[d]) ==> c == d)
            && (forall c :: 0 <= c < |w.clients| && w.clients[c].Critical? ==>
                  w.clients[c].read == Latest(w.history))
            && Chain(w.history) && w.items[0].data == Latest(w.history)
  {
    BeginOk<V>(servers, clients);
    ExecKeepsInv(protos, Begin(servers, clients), script);
    var w := Exec(protos, Begin(servers, clients), script).value;
    forall c | 0 <= c < |w.clients| && InSection(w.clients[c]) ensures HeldBy(w, 0, c) {
      assert ClientOk(w, w.clients[c]);
    }
    assert LockOk(w, 0);
    forall c | 0 <= c < |w.clients| && w.clients[c].Critical? ensures w.clients[c].read == Latest(w.history) {
      assert ClientOk(w, w.clients[c]);
    }
  }

  /** What a client's question about the lock does on its server: a counter goes up by one, a missing one is created by
      the binary protocol with the value that means success, and the ASCII protocol leaves it to the add. */
  lemma IncrExactly<V>(proto: Protocol, w: World<V>, c: Client)
    requires Step(proto, w, c, DoIncr).Some?
    ensures c < |w.clients| && w.clients[c].Reading? && w.clients[c].at < |w.items|
    ensures var (at, w') := (w.clients[c].at, Step(proto, w, c, DoIncr).value);
            && w'.items == w.items[at := w'.items[at]] && w'.items[at].data == w.items[at].data
            && w'.items[at].lock == (if w.items[at].lock.Some? then Some(w.items[at].lock.value + 1)
                                     else if proto.Binary? then Some(1) else None)
            && w'.clients[c].Reading?
            && (Acquired(w'.clients[c]) <==> w.clients[c].added || w'.items[at].lock == Some(1))
  {
  }

  /** A client that was refused asks the same server again, from the start. */
  lemma RefusedAsksAgain<V>(proto: Protocol, w: World<V>, c: Client)
    requires Step(proto, w, c, Decide).Some? && w.clients[c].Reading? && !Acquired(w.clients[c])
    ensures Step(proto, w, c, Decide).value == Put(w, c, Reading(w.clients[c].at, 0, NotAsked, false, None))
  {
  }

  /** In every interleaving, a client that went past server 0 holds its lock, every further server is untouched, and
      once incr and add were answered the client has the lock there too: no lock after the first is ever refused. */
  lemma NeverContended<V>(protos: Client -> Protocol, servers: nat, clients: nat,
                          script: seq<(Client, Action<V>)>, c: Client)
    requires servers > 0 && Exec(protos, Begin(servers, clients), script).Some?
    requires c < |Exec(protos, Begin(servers, clients), script).value.clients|
    ensures var w := Exec(protos, Begin(servers, clients), script).value; var p := w.clients[c];
            p.Reading? && p.at > 0 ==>
              HeldBy(w, 0, c) && Fresh(w, p.at + 1) && (p.asked >= 2 ==> HeldBy(w, p.at, c))
  {
    BeginOk<V>(servers, clients);
    ExecKeepsInv(protos, Begin(servers, clients), script);
    var w := Exec(protos, Begin(servers, clients), script).value;
    if w.clients[c].Reading? && w.clients[c].at > 0 { PioneerOk(w, c); }
  }

  /** A client past server 0 never finds the next lock taken, so no client leaves a lock behind by giving up. */
  lemma NoLockLeftBehind<V>(protos: Client -> Protocol, servers: nat, clients: nat,
                            script: seq<(Client, Action<V>)>, c: Client)
    requires servers > 0 && Exec(protos, Begin(servers, clients), script).Some?
    requires var w := Exec(protos, Begin(servers, clients), script).value; Step(protos(c), w, c, GiveUp).Some?
    ensures var w := Exec(protos, Begin(servers, clients), script).value;
            c < |w.clients| && forall j: ServerId :: !HeldBy(w, j, c)
  {
    BeginOk<V>(servers, clients);
    ExecKeepsInv(protos, Begin(servers, clients), script);
    var w := Exec(protos, Begin(servers, clients), script).value;
    if w.clients[c].at > 0 { PioneerOk(w, c); }
  }

  // ---------------------------------------------------------------------------------------------------------
  // A counter in the session

  function Bump(read: Option<nat>): nat {
    match read case None => 1 case Some(n) => n + 1
  }

  /** Every client adds one to what it read. */
  ghost predicate Counting(protos: Client -> Protocol, w: World<nat>, script: seq<(Client, Action<nat>)>)
    decreases |script|
  {
    script == [] ||
    var (c, a) := script[0];
    && (a.Commit? && c < |w.clients| && w.clients[c].Critical? ==> a.write == Bump(w.clients[c].read))
    && (Step(protos(c), w, c, a).Some? ==> Counting(protos, Step(protos(c), w, c, a).value, script[1..]))
  }

  /** The sections that were completed: the writes of session data on server 0. */
  function Sections<V>(script: seq<(Client, Action<V>)>): nat {
    if script == [] then 0
    else (if script[0].1 == StoreData(0) then 1 else 0) + Sections(script[1..])
  }

  ghost predicate Bumped(w: World<nat>) {
    && (forall c :: 0 <= c < |w.clients| && w.clients[c].Writing? ==> w.clients[c].write == Bump(w.clients[c].read))
    && (forall i :: 0 <= i < |w.history| ==> w.history[i].1 == Bump(w.history[i].0))
  }

  lemma {:induction false} ExecCounts(protos: Client -> Protocol, w: World<nat>, script: seq<(Client, Action<nat>)>)
    requires Bumped(w) && Counting(protos, w, script) && Exec(protos, w, script).Some?
    ensures Bumped(Exec(protos, w, script).value)
    ensures |Exec(protos, w, script).value.history| == |w.history| + Sections(script)
    decreases |script|
  {
    if script != [] {
      var (c, a) := script[0];
      var w' := Step(protos(c), w, c, a).value;
      assert |w'.history| == |w.history| + if a == StoreData(0) then 1 else 0;
      assert Bumped(w');
      ExecCounts(protos, w', script[1..]);
    }
  }

  lemma {:induction false} ChainOfBumps(h: seq<(Option<nat>, nat)>)
    requires Chain(h) && forall i :: 0 <= i < |h| ==> h[i].1 == Bump(h[i].0)
    ensures Latest(h) == if h == [] then None else Some(|h|)
    decreases |h|
  {
    if h != [] {
      var n := |h| - 1;
      var g := h[..n];
      assert forall i :: 0 <= i < n ==> g[i] == h[i];
      ChainOfBumps(g);
      if n > 0 { assert h[n].0 == Some(h[n - 1].1) && g[n - 1] == h[n - 1]; }
    }
  }

  /** Any number of clients, each adding one: the session holds the number of completed sections. */
  lemma CounterCounts(protos: Client -> Protocol, servers: nat, clients: nat, script: seq<(Client, Action<nat>)>)
    requires servers > 0 && Exec(protos, Begin(servers, clients), script).Some?
    requires Counting(protos, Begin(servers, clients), script)
    ensures var w := Exec(protos, Begin(servers, clients), script).value;
            |w.items| > 0 && w.items[0].data == if Sections(script) == 0 then None else Some(Sections(script))
  {
    BeginOk<nat>(servers, clients);
    ExecKeepsInv(protos, Begin(servers, clients), script);
    ExecCounts(protos, Begin(servers, clients), script);
    ChainOfBumps(Exec(protos, Begin(servers, clients), script).value.history);
  }
}
