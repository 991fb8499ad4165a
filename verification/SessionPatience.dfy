/** Clients that run out of patience (src/memcache_session.c:382-387): the read returns as if it had succeeded, with no
    lock and an empty session, and in the end the client writes what it made of that. */
module SessionPatience {
  import opened Basics
  import opened Wrappers
  import opened SessionLock
  import opened SessionExact

  /** `gaveUp` are the clients with an empty session in hand. An intruder writes, without a lock: its data, and how far
      it is with each server, as for a writing client. */
  datatype Crowd<V> = Crowd(world: World<V>, gaveUp: set<Client>, intruders: map<Client, (V, seq<nat>)>)

  datatype Move<V> =
    | Plain(action: Action<V>)
    | Intrude(write: V)
    | StoreAnyway(at: ServerId)
    | ResetAnyway(at: ServerId)
    | Leave

  /** One move of client `c`, or None if it is not the client's next one. */
  function Go<V>(proto: Protocol, k: Crowd<V>, c: Client, m: Move<V>): Option<Crowd<V>> {
    match m
    case Plain(a) =>
      (match Step(proto, k.world, c, a)
       case None => None
       case Some(w) =>
         if c in k.intruders then None
         else Some(k.(world := w, gaveUp := if a.GiveUp? then k.gaveUp + {c} else k.gaveUp - {c})))
    case Intrude(v) =>
      if c in k.gaveUp then
        Some(k.(gaveUp := k.gaveUp - {c}, intruders := k.intruders[c := (v, Zeros(|k.world.items|))]))
      else None
    case StoreAnyway(j) =>
      if c in k.intruders && j < |k.world.items| && j < |k.intruders[c].1| && k.intruders[c].1[j] == 0 then
        var (v, stage) := k.intruders[c];
        var w := PutItem(k.world, j, k.world.items[j].(data := Some(v)));
        Some(k.(world := if j == 0 then w.(history := w.history + [(None, v)]) else w,
                intruders := k.intruders[c := (v, stage[j := 1])]))
      else None
    case ResetAnyway(j) =>
      if c in k.intruders && j < |k.world.items| && j < |k.intruders[c].1| && k.intruders[c].1[j] == 1 then
        var (v, stage) := k.intruders[c];
        Some(k.(world := PutItem(k.world, j, k.world.items[j].(lock := Some(0))),
                intruders := k.intruders[c := (v, stage[j := 2])]))
      else None
    case Leave =>
      if c in k.intruders && (forall j :: 0 <= j < |k.intruders[c].1| ==> k.intruders[c].1[j] == 2) then
        Some(k.(intruders := k.intruders - {c}))
      else None
  }

  function Arrive<V>(servers: nat, clients: nat): Crowd<V> { Crowd(Begin(servers, clients), {}, map[]) }

  function Play<V>(protos: Client -> Protocol, k: Crowd<V>, script: seq<(Client, Move<V>)>): Option<Crowd<V>>
    decreases |script|
  {
    if script == [] then Some(k)
    else
      match Go(protos(script[0].0), k, script[0].0, script[0].1)
      case None => None
      case Some(k') => Play(protos, k', script[1..])
  }

  // ---------------------------------------------------------------------------------------------------------
  // Without intruders

  ghost predicate Polite<V>(script: seq<(Client, Move<V>)>) { forall m <- script :: !m.1.Intrude? }

  lemma {:induction false} PoliteKeeps<V>(protos: Client -> Protocol, k: Crowd<V>, script: seq<(Client, Move<V>)>)
    requires Inv(k.world) && k.intruders == map[] && Polite(script) && Play(protos, k, script).Some?
    ensures Inv(Play(protos, k, script).value.world)
    decreases |script|
  {
    if script != [] {
      var (c, m) := script[0];
      assert script[0] in script && forall n <- script[1..] :: n in script;
      hide Step, Inv;
      StepKeepsInv(protos(c), k.world, c, m.action);
      PoliteKeeps(protos, Go(protos(c), k, c, m).value, script[1..]);
    }
  }

  /** As long as no client that gave up writes, no update is lost. */
  lemma PatientRuns<V>(protos: Client -> Protocol, servers: nat, clients: nat, script: seq<(Client, Move<V>)>)
    requires servers > 0 && Polite(script) && Play(protos, Arrive(servers, clients), script).Some?
    ensures var w := Play(protos, Arrive(servers, clients), script).value.world;
            |w.items| > 0 && Chain(w.history) && w.items[0].data == Latest(w.history)
  {
    BeginOk<V>(servers, clients);
    PoliteKeeps(protos, Arrive(servers, clients), script);
  }

  // ---------------------------------------------------------------------------------------------------------
  // A single client

  /** A lone client has every lock it asked for. */
  ghost predicate Lone<V>(w: World<V>) {
    |w.clients| <= 1 && forall c :: 0 <= c < |w.clients| ==> LoneOk(w, w.clients[c])
  }

  ghost predicate LoneOk<V>(w: World<V>, p: Phase<V>) {
    p.Reading? ==>
      p.at < |w.items|
      && (p.asked == 0 || Acquired(p) || (p.asked == 1 && p.incr.Missing? && w.items[p.at].lock.None?))
  }

  lemma LoneStep<V>(proto: Protocol, w: World<V>, c: Client, a: Action<V>)
    requires Inv(w) && Lone(w) && Step(proto, w, c, a).Some?
    ensures Lone(Step(proto, w, c, a).value) && !a.GiveUp?
  {
    var p := w.clients[c];
    assert c == 0 && LoneOk(w, p) && ClientOk(w, p);
    if p.Reading? { LoneLock(w, p.at); }
  }

  /** A lock that the lone client does not hold is free. */
  lemma LoneLock<V>(w: World<V>, j: ServerId)
    requires Inv(w) && |w.clients| == 1 && j < |w.items|
    ensures Positive(w.items[j].lock) ==> Holds(w.clients[0], j)
  {
    assert LockOk(w, j);
  }

  lemma {:induction false} LonePlay<V>(protos: Client -> Protocol, k: Crowd<V>, script: seq<(Client, Move<V>)>)
    requires Inv(k.world) && Lone(k.world) && k.gaveUp == {} && k.intruders == map[] && Play(protos, k, script).Some?
    ensures Inv(Play(protos, k, script).value.world)
    decreases |script|
  {
    if script != [] {
      var (c, m) := script[0];
      hide Step, Inv, Lone;
      StepKeepsInv(protos(c), k.world, c, m.action);
      LoneStep(protos(c), k.world, c, m.action);
      LonePlay(protos, Go(protos(c), k, c, m).value, script[1..]);
    }
  }

  // ---------------------------------------------------------------------------------------------------------
  // Two clients or more

  /** From here an update can be lost. */
  ghost predicate Spoils<V(!new)>(protos: Client -> Protocol, k: Crowd<V>) {
    exists script :: Play(protos, k, script).Some? && !Chain(Play(protos, k, script).value.world.history)
  }

  lemma SpoilsOn<V(!new)>(protos: Client -> Protocol, k: Crowd<V>, c: Client, m: Move<V>, k1: Crowd<V>)
    requires Go(protos(c), k, c, m) == Some(k1) && Spoils(protos, k1)
    ensures Spoils(protos, k)
  {
    var script :| Play(protos, k1, script).Some? && !Chain(Play(protos, k1, script).value.world.history);
    assert ([(c, m)] + script)[1..] == script;
    assert Play(protos, k, [(c, m)] + script) == Play(protos, k1, script);
  }

  lemma Spoilt<V(!new)>(protos: Client -> Protocol, k: Crowd<V>)
    requires !Chain(k.world.history)
    ensures Spoils(protos, k)
  {
    var none: seq<(Client, Move<V>)> := [];
    assert Play(protos, k, none) == Some(k);
  }

  /** What clients can do without intruders they can do here as well. */
  lemma {:induction false} SpoilsAlong<V(!new)>(protos: Client -> Protocol, k: Crowd<V>,
                                                script: seq<(Client, Action<V>)>, w: World<V>)
    requires k.intruders == map[] && Exec(protos, k.world, script) == Some(w)
    requires forall gone: set<Client> :: Spoils(protos, Crowd(w, gone, map[]))
    ensures Spoils(protos, k)
    decreases |script|
  {
    if script == [] {
      assert k == Crowd(w, k.gaveUp, map[]);
    } else {
      var (c, a) := script[0];
      var k1 := Go(protos(c), k, c, Plain(a)).value;
      hide Spoils;
      SpoilsAlong(protos, k1, script[1..], w);
      SpoilsOn(protos, k, c, Plain(a), k1);
    }
  }

  /** A client finds server 0's lock taken. */
  lemma Refused<V(!new)>(protos: Client -> Protocol, w: World<V>, c: Client, v: V)
    requires c < |w.clients| && |w.items| > 0 && w.clients[c].Idle? && w.items[0] == Item(Some(1), Some(v))
    ensures Leads(protos, w, World(w.items[0 := Item(Some(2), Some(v))],
                                   w.clients[c := Reading(0, 3, Counted(2), false, Some(v))], w.history))
  {
    var proto, items := protos(c), w.items[0 := Item(Some(2), Some(v))];
    var w0 := World(w.items, w.clients[c := Reader(0)], w.history);
    var w1 := World(items, w.clients[c := Reading(0, 1, Counted(2), false, None)], w.history);
    var w2 := World(items, w.clients[c := Reading(0, 2, Counted(2), false, None)], w.history);
    var w3 := World(items, w.clients[c := Reading(0, 3, Counted(2), false, Some(v))], w.history);
    var (s1, s2, s3) := (Step(proto, w0, c, DoIncr), Step(proto, w1, c, DoAdd), Step(proto, w2, c, DoGet));
    assert Step(proto, w, c, Start) == Some(w0);
    assert s1.Some? && s1.value.items == w1.items && s1.value.clients == w1.clients;
    assert s2.Some? && s2.value.clients == w2.clients && s3.Some? && s3.value.clients == w3.clients;
    hide Step;
    LeadsStep(protos, w2, c, DoGet, w3);
    LeadsOn(protos, w1, c, DoAdd, w2, w3);
    LeadsOn(protos, w0, c, DoIncr, w1, w3);
    LeadsOn(protos, w, c, Start, w0, w3);
  }

  /** It gives up, and writes all the same. */
  lemma Intrusion<V(!new)>(protos: Client -> Protocol, w: World<V>, gone: set<Client>, c: Client, v: V)
    requires c < |w.clients| && |w.items| > 0 && w.history != []
    requires w.clients[c].Reading? && w.clients[c].asked == 3 && !Acquired(w.clients[c])
    ensures Spoils(protos, Crowd(w, gone, map[]))
  {
    var (k, w1) := (Crowd(w, gone, map[]), Put(w, c, Idle));
    var k1 := Crowd(w1, gone + {c}, map[]);
    var k2 := Go(protos(c), k1, c, Intrude(v)).value;
    var k3 := Go(protos(c), k2, c, StoreAnyway(0)).value;
    assert Go(protos(c), k, c, Plain(GiveUp)) == Some(k1);
    var (h, n) := (k3.world.history, |w.history|);
    assert h == w.history + [(None, v)];
    assert h[n].0 == None && h[n - 1] == w.history[n - 1];
    assert !Chain(h);
    hide Go;
    Spoilt(protos, k3);
    SpoilsOn(protos, k2, c, StoreAnyway(0), k3);
    SpoilsOn(protos, k1, c, Intrude(v), k2);
    SpoilsOn(protos, k, c, Plain(GiveUp), k1);
  }

  /** Client 0 creates the session and comes back to it; client 1 waits, gives up and overwrites it. */
  lemma Overwritten<V(!new)>(protos: Client -> Protocol, servers: nat, clients: nat, v: V)
    requires servers > 0 && clients > 1
    ensures Spoils(protos, Arrive<V>(servers, clients))
  {
    var w := FirstSection(protos, servers, clients, v);
    var w1 := World(Written(w.items, 1, v), w.clients[0 := Idle], w.history);
    var w2 := World(w1.items[0 := Item(Some(1), Some(v))], w1.clients[0 := Critical(1, Some(v))], w.history);
    var w3 := World(w2.items[0 := Item(Some(2), Some(v))],
                    w2.clients[1 := Reading(0, 3, Counted(2), false, Some(v))], w.history);
    hide Leads, Spoils;
    WriteRest(protos, w, 0, 1);
    Join(protos, w1, 0, v);
    Refused(protos, w2, 1, v);
    LeadsTrans(protos, Begin(servers, clients), w, w1);
    LeadsTrans(protos, Begin(servers, clients), w1, w2);
    LeadsTrans(protos, Begin(servers, clients), w2, w3);
    forall gone: set<Client> ensures Spoils(protos, Crowd(w3, gone, map[])) {
      Intrusion(protos, w3, gone, 1, v);
    }
    var script := LeadsBy(protos, Begin(servers, clients), w3);
    SpoilsAlong(protos, Arrive<V>(servers, clients), script, w3);
  }

  lemma LeadsBy<V(!new)>(protos: Client -> Protocol, w: World<V>, w': World<V>)
    returns (script: seq<(Client, Action<V>)>)
    requires Leads(protos, w, w')
    ensures Exec(protos, w, script) == Some(w')
  {
    script :| Exec(protos, w, script) == Some(w');
  }

  // ---------------------------------------------------------------------------------------------------------
  // Exactly

  /** If clients that give up write all the same, no update is ever lost if and only if there is at most one client. */
  lemma PatienceExactly<V(!new)>(protos: Client -> Protocol, servers: nat, clients: nat, v: V)
    requires servers > 0
    ensures Spoils(protos, Arrive<V>(servers, clients)) <==> clients > 1
  {
    if clients > 1 {
      Overwritten(protos, servers, clients, v);
    } else {
      forall script | Play(protos, Arrive<V>(servers, clients), script).Some?
        ensures Chain(Play(protos, Arrive<V>(servers, clients), script).value.world.history)
      {
        BeginOk<V>(servers, clients);
        LonePlay(protos, Arrive<V>(servers, clients), script);
      }
    }
  }
}
