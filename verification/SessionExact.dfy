/** For which numbers of servers and clients the session's locks and data can be trusted on every server, not only on
    the first one. */
module SessionExact {
  import opened Basics
  import opened Wrappers
  import opened SessionLock

  /** On every server, the lock is at least 1 exactly while some client holds it. */
  ghost predicate LocksTell<V>(w: World<V>) {
    forall j :: 0 <= j < |w.items| ==> (Positive(w.items[j].lock) <==> exists c: Client :: HeldBy(w, j, c))
  }

  /** Once every client is done, all servers have the same session data. */
  ghost predicate DataAgrees<V>(w: World<V>) {
    (forall c :: 0 <= c < |w.clients| ==> w.clients[c].Idle?) ==>
      forall j :: 0 <= j < |w.items| ==> w.items[j].data == w.items[0].data
  }

  // ---------------------------------------------------------------------------------------------------------
  // A single client

  /** What a single client leaves on the servers. */
  ghost predicate SoloOk<V>(w: World<V>) {
    && |w.clients| <= 1
    && (forall j :: 0 <= j < |w.items| && HeldBy(w, j, 0) ==> Positive(w.items[j].lock))
    && (forall j :: 0 <= j < |w.items| ==> SoloData(w, j))
  }

  ghost predicate SoloData<V>(w: World<V>, j: ServerId)
    requires j < |w.items|
  {
    if |w.clients| == 1 && w.clients[0].Writing? then
      j < |w.clients[0].stage| && w.clients[0].stage[j] >= 1 ==> w.items[j].data == Some(w.clients[0].write)
    else w.items[j].data == w.items[0].data
  }

  lemma SoloStep<V>(proto: Protocol, w: World<V>, c: Client, a: Action<V>)
    requires Inv(w) && SoloOk(w) && Step(proto, w, c, a).Some?
    ensures SoloOk(Step(proto, w, c, a).value)
  {
    var w' := Step(proto, w, c, a).value;
    assert ClientOk(w, w.clients[0]);
    SoloItems(proto, w, a);
    forall j | 0 <= j < |w'.items| && HeldBy(w', j, 0) ensures Positive(w'.items[j].lock) {
      SoloLock(proto, w, a, j);
    }
    forall j | 0 <= j < |w'.items| ensures SoloData(w', j) { SoloDatum(proto, w, a, j); }
  }

  lemma SoloItems<V>(proto: Protocol, w: World<V>, a: Action<V>)
    requires Step(proto, w, 0, a).Some?
    ensures |Step(proto, w, 0, a).value.items| == |w.items| && |Step(proto, w, 0, a).value.clients| == |w.clients|
  {
  }

  lemma SoloLock<V>(proto: Protocol, w: World<V>, a: Action<V>, j: ServerId)
    requires SoloOk(w) && Step(proto, w, 0, a).Some? && |w.items| > 0 && ClientOk(w, w.clients[0])
    requires j < |w.items| && HeldBy(Step(proto, w, 0, a).value, j, 0)
    ensures j < |Step(proto, w, 0, a).value.items| && Positive(Step(proto, w, 0, a).value.items[j].lock)
  {
    hide SoloData;
    assert HeldBy(w, j, 0) ==> Positive(w.items[j].lock);
  }

  lemma SoloDatum<V>(proto: Protocol, w: World<V>, a: Action<V>, j: ServerId)
    requires SoloOk(w) && Step(proto, w, 0, a).Some? && |w.items| > 0 && ClientOk(w, w.clients[0]) && j < |w.items|
    ensures j < |Step(proto, w, 0, a).value.items| && SoloData(Step(proto, w, 0, a).value, j)
  {
    hide HeldBy, Positive;
    assert SoloData(w, j) && SoloData(w, 0);
  }

  lemma {:induction false} SoloExec<V>(protos: Client -> Protocol, w: World<V>, script: seq<(Client, Action<V>)>)
    requires Inv(w) && SoloOk(w) && Exec(protos, w, script).Some?
    ensures SoloOk(Exec(protos, w, script).value)
    decreases |script|
  {
    if script != [] {
      var (c, a) := script[0];
      hide SoloOk, Step;
      StepKeepsInv(protos(c), w, c, a);
      SoloStep(protos(c), w, c, a);
      SoloExec(protos, Step(protos(c), w, c, a).value, script[1..]);
    }
  }

  lemma {:induction false} ExecSizes<V>(protos: Client -> Protocol, w: World<V>, script: seq<(Client, Action<V>)>)
    requires Exec(protos, w, script).Some?
    ensures |Exec(protos, w, script).value.items| == |w.items|
    ensures |Exec(protos, w, script).value.clients| == |w.clients|
    decreases |script|
  {
    if script != [] {
      var (c, a) := script[0];
      ExecSizes(protos, Step(protos(c), w, c, a).value, script[1..]);
    }
  }

  lemma FewAreExact<V>(protos: Client -> Protocol, servers: nat, clients: nat, script: seq<(Client, Action<V>)>)
    requires servers == 1 || (servers > 0 && clients <= 1)
    requires Exec(protos, Begin(servers, clients), script).Some?
    ensures var w := Exec(protos, Begin(servers, clients), script).value; LocksTell(w) && DataAgrees(w)
  {
    MutualExclusion(protos, servers, clients, script);
    ExecSizes(protos, Begin(servers, clients), script);
    var w := Exec(protos, Begin(servers, clients), script).value;
    if servers > 1 {
      BeginOk<V>(servers, clients);
      SoloExec(protos, Begin(servers, clients), script);
      forall j | 0 <= j < |w.items| ensures Positive(w.items[j].lock) <==> exists c: Client :: HeldBy(w, j, c) {
        assert LockOk(w, j);
      }
      forall j | 0 <= j < |w.items| && (forall c :: 0 <= c < |w.clients| ==> w.clients[c].Idle?)
        ensures w.items[j].data == w.items[0].data
      {
        assert SoloData(w, j);
      }
    }
  }

  // ---------------------------------------------------------------------------------------------------------
  // Two clients and two servers, or more

  ghost predicate Leads<V(!new)>(protos: Client -> Protocol, w: World<V>, w': World<V>) {
    exists script :: Exec(protos, w, script) == Some(w')
  }

  lemma LeadsNowhere<V(!new)>(protos: Client -> Protocol, w: World<V>)
    ensures Leads(protos, w, w)
  {
    var none: seq<(Client, Action<V>)> := [];
    assert Exec(protos, w, none) == Some(w);
  }

  lemma LeadsOn<V(!new)>(protos: Client -> Protocol, w: World<V>, c: Client, a: Action<V>, w1: World<V>, w2: World<V>)
    requires Step(protos(c), w, c, a) == Some(w1) && Leads(protos, w1, w2)
    ensures Leads(protos, w, w2)
  {
    var script :| Exec(protos, w1, script) == Some(w2);
    assert ([(c, a)] + script)[1..] == script;
    assert Exec(protos, w, [(c, a)] + script) == Some(w2);
  }

  lemma LeadsStep<V(!new)>(protos: Client -> Protocol, w: World<V>, c: Client, a: Action<V>, w1: World<V>)
    requires Step(protos(c), w, c, a) == Some(w1)
    ensures Leads(protos, w, w1)
  {
    LeadsNowhere(protos, w1);
    LeadsOn(protos, w, c, a, w1, w1);
  }

  lemma LeadsTrans<V(!new)>(protos: Client -> Protocol, w: World<V>, w1: World<V>, w2: World<V>)
    requires Leads(protos, w, w1) && Leads(protos, w1, w2)
    ensures Leads(protos, w, w2)
  {
    var script :| Exec(protos, w, script) == Some(w1);
    LeadsAlong(protos, w, script, w1, w2);
  }

  lemma {:induction false} LeadsAlong<V(!new)>(
    protos: Client -> Protocol, w: World<V>, script: seq<(Client, Action<V>)>, w1: World<V>, w2: World<V>)
    requires Exec(protos, w, script) == Some(w1) && Leads(protos, w1, w2)
    ensures Leads(protos, w, w2)
    decreases |script|
  {
    if script != [] {
      var (c, a) := script[0];
      var next := Step(protos(c), w, c, a).value;
      LeadsAlong(protos, next, script[1..], w1, w2);
      LeadsOn(protos, w, c, a, next, w2);
    }
  }

  function Reader<V>(at: ServerId): Phase<V> { Reading(at, 0, NotAsked, false, None) }

  /** A client takes an untouched server and finds no session there. */
  lemma Visit<V(!new)>(protos: Client -> Protocol, w: World<V>, c: Client, k: ServerId)
    requires c < |w.clients| && k < |w.items| && w.clients[c] == Reader(k) && w.items[k] == Item(None, None)
    ensures var after := if k + 1 < |w.items| then Reader(k + 1) else Critical(k + 1, None);
            Leads(protos, w, World(w.items[k := Item(Some(1), None)], w.clients[c := after], w.history))
  {
    var proto, items := protos(c), w.items[k := Item(Some(1), None)];
    var answer := if proto.Binary? then Counted(1) else Missing;
    var w1 := World(if proto.Binary? then items else w.items, w.clients[c := Reading(k, 1, answer, false, None)],
                    w.history);
    var w2 := World(items, w.clients[c := Reading(k, 2, answer, proto.Ascii?, None)], w.history);
    var w3 := World(items, w.clients[c := Reading(k, 3, answer, proto.Ascii?, None)], w.history);
    var after := if k + 1 < |w.items| then Reader(k + 1) else Critical(k + 1, None);
    var w4 := World(items, w.clients[c := after], w.history);
    var (s1, s2) := (Step(proto, w, c, DoIncr), Step(proto, w1, c, DoAdd));
    var (s3, s4) := (Step(proto, w2, c, DoGet), Step(proto, w3, c, Decide));
    assert s1.Some? && s1.value.items == w1.items && s1.value.clients == w1.clients;
    assert s2.Some? && s2.value.items == w2.items && s2.value.clients == w2.clients;
    assert s3.Some? && s3.value.clients == w3.clients && s4.Some? && s4.value.clients == w4.clients;
    hide Step;
    LeadsStep(protos, w3, c, Decide, w4);
    LeadsOn(protos, w2, c, DoGet, w3, w4);
    LeadsOn(protos, w1, c, DoAdd, w2, w4);
    LeadsOn(protos, w, c, DoIncr, w1, w4);
  }

  /** The lock is taken and the session missing from server k on. */
  function Claimed<V>(items: seq<Item<V>>, k: ServerId): seq<Item<V>>
    requires k <= |items|
  {
    items[..k] + seq(|items| - k, _ => Item(Some(1), None))
  }

  lemma {:induction false} VisitAll<V(!new)>(protos: Client -> Protocol, w: World<V>, c: Client, k: ServerId)
    requires c < |w.clients| && k < |w.items| && w.clients[c] == Reader(k)
    requires forall j :: k <= j < |w.items| ==> w.items[j] == Item(None, None)
    ensures Leads(protos, w, World(Claimed(w.items, k), w.clients[c := Critical(|w.items|, None)], w.history))
    decreases |w.items| - k
  {
    Visit(protos, w, c, k);
    var after := if k + 1 < |w.items| then Reader(k + 1) else Critical(k + 1, None);
    var w1 := World(w.items[k := Item(Some(1), None)], w.clients[c := after], w.history);
    var w2 := World(Claimed(w.items, k), w.clients[c := Critical(|w.items|, None)], w.history);
    assert Claimed(w1.items, k + 1) == w2.items;
    if k + 1 < |w.items| {
      VisitAll(protos, w1, c, k + 1);
      assert w1.clients[c := Critical(|w.items|, None)] == w2.clients;
      LeadsTrans(protos, w, w1, w2);
    } else {
      assert w1.items == w2.items;
    }
  }

  /** A client takes server 0's free lock and finds the session. */
  lemma Join<V(!new)>(protos: Client -> Protocol, w: World<V>, c: Client, v: V)
    requires c < |w.clients| && |w.items| > 0 && w.clients[c].Idle? && w.items[0] == Item(Some(0), Some(v))
    ensures Leads(protos, w, World(w.items[0 := Item(Some(1), Some(v))], w.clients[c := Critical(1, Some(v))],
                                   w.history))
  {
    var proto, items := protos(c), w.items[0 := Item(Some(1), Some(v))];
    var w0 := World(w.items, w.clients[c := Reader(0)], w.history);
    var w1 := World(items, w.clients[c := Reading(0, 1, Counted(1), false, None)], w.history);
    var w2 := World(items, w.clients[c := Reading(0, 2, Counted(1), false, None)], w.history);
    var w3 := World(items, w.clients[c := Reading(0, 3, Counted(1), false, Some(v))], w.history);
    var w4 := World(items, w.clients[c := Critical(1, Some(v))], w.history);
    var (s1, s2) := (Step(proto, w0, c, DoIncr), Step(proto, w1, c, DoAdd));
    var (s3, s4) := (Step(proto, w2, c, DoGet), Step(proto, w3, c, Decide));
    assert Step(proto, w, c, Start) == Some(w0);
    assert s1.Some? && s1.value.items == w1.items && s1.value.clients == w1.clients;
    assert s2.Some? && s2.value.clients == w2.clients && s3.Some? && s3.value.clients == w3.clients;
    assert s4.Some? && s4.value.clients == w4.clients;
    hide Step;
    LeadsStep(protos, w3, c, Decide, w4);
    LeadsOn(protos, w2, c, DoGet, w3, w4);
    LeadsOn(protos, w1, c, DoAdd, w2, w4);
    LeadsOn(protos, w0, c, DoIncr, w1, w4);
    LeadsOn(protos, w, c, Start, w0, w4);
  }

  /** A writing client stores the data and resets the lock on one server. */
  lemma WriteOne<V(!new)>(protos: Client -> Protocol, w: World<V>, c: Client, j: ServerId)
    requires c < |w.clients| && w.clients[c].Writing? && j < |w.items| == |w.clients[c].stage|
    requires w.clients[c].stage[j] == 0
    ensures var p := w.clients[c];
            Leads(protos, w, World(w.items[j := Item(Some(0), Some(p.write))],
                                   w.clients[c := p.(stage := p.stage[j := 2])],
                                   if j == 0 then w.history + [(p.read, p.write)] else w.history))
  {
    var p, proto := w.clients[c], protos(c);
    var history := if j == 0 then w.history + [(p.read, p.write)] else w.history;
    var w1 := World(w.items[j := w.items[j].(data := Some(p.write))], w.clients[c := p.(stage := p.stage[j := 1])],
                    history);
    var w2 := World(w.items[j := Item(Some(0), Some(p.write))], w.clients[c := p.(stage := p.stage[j := 2])], history);
    var s2 := Step(proto, w1, c, ResetLock(j));
    assert Step(proto, w, c, StoreData(j)) == Some(w1);
    assert p.stage[j := 1][j := 2] == p.stage[j := 2];
    assert s2.Some? && s2.value.items == w2.items && s2.value.clients == w2.clients;
    hide Step;
    LeadsStep(protos, w1, c, ResetLock(j), w2);
    LeadsOn(protos, w, c, StoreData(j), w1, w2);
  }

  /** The data is stored and the lock free from server j on. */
  function Written<V>(items: seq<Item<V>>, j: ServerId, v: V): seq<Item<V>>
    requires j <= |items|
  {
    items[..j] + seq(|items| - j, _ => Item(Some(0), Some(v)))
  }

  /** How far a writing client is: done with the servers before j, not begun on the others. */
  function Stages(servers: nat, j: nat): seq<nat>
    requires j <= servers
  {
    seq(servers, i => if i < j then 2 else 0)
  }

  /** A client writes the servers from j on, in order, and is done. */
  lemma {:induction false} WriteRest<V(!new)>(protos: Client -> Protocol, w: World<V>, c: Client, j: ServerId)
    requires c < |w.clients| && w.clients[c].Writing? && 0 < j <= |w.items|
    requires w.clients[c].stage == Stages(|w.items|, j)
    ensures Leads(protos, w, World(Written(w.items, j, w.clients[c].write), w.clients[c := Idle], w.history))
    decreases |w.items| - j
  {
    var p, n := w.clients[c], |w.items|;
    var end := World(Written(w.items, j, p.write), w.clients[c := Idle], w.history);
    if j == n {
      assert Written(w.items, j, p.write) == w.items;
      LeadsStep(protos, w, c, Finish, end);
    } else {
      WriteOne(protos, w, c, j);
      var w1 := World(w.items[j := Item(Some(0), Some(p.write))], w.clients[c := p.(stage := p.stage[j := 2])],
                      w.history);
      assert p.stage[j := 2] == Stages(n, j + 1);
      WriteRest(protos, w1, c, j + 1);
      assert Written(w1.items, j + 1, p.write) == end.items && w1.clients[c := Idle] == end.clients;
      LeadsTrans(protos, w, w1, end);
    }
  }

  /** Client 0 creates the session on all servers and writes server 0. */
  lemma FirstSection<V(!new)>(protos: Client -> Protocol, servers: nat, clients: nat, v: V) returns (w: World<V>)
    requires servers > 0 && clients > 0
    ensures Leads(protos, Begin(servers, clients), w)
    ensures |w.items| == servers && w.items[0] == Item(Some(0), Some(v)) && w.history == [(None, v)]
    ensures w.clients == Begin<V>(servers, clients).clients[0 := Writing(servers, None, v, Stages(servers, 1))]
  {
    var w0 := Begin<V>(servers, clients);
    var w1 := World(w0.items, w0.clients[0 := Reader(0)], []);
    var w2 := World(Claimed(w0.items, 0), w0.clients[0 := Critical(servers, None)], []);
    var w3 := World(w2.items, w0.clients[0 := Writing(servers, None, v, Zeros(servers))], []);
    w := World(w2.items[0 := Item(Some(0), Some(v))], w0.clients[0 := Writing(servers, None, v, Stages(servers, 1))],
               [(None, v)]);
    var s3 := Step(protos(0), w2, 0, Commit(v));
    assert Step(protos(0), w0, 0, Start) == Some(w1);
    assert s3.Some? && s3.value.clients == w3.clients;
    hide Step, Leads;
    VisitAll(protos, w1, 0, 0);
    assert w1.clients[0 := Critical(servers, None)] == w2.clients;
    WriteOne(protos, w3, 0, 0);
    assert Zeros(servers)[0 := 2] == Stages(servers, 1);
    assert w3.clients[0 := Writing(servers, None, v, Stages(servers, 1))] == w.clients;
    assert w3.history + [(None, v)] == w.history;
    LeadsOn(protos, w2, 0, Commit(v), w3, w);
    LeadsTrans(protos, w1, w2, w);
    LeadsOn(protos, w0, 0, Start, w1, w);
  }

  /** Client 1 runs a whole section of its own. */
  lemma SecondSection<V(!new)>(protos: Client -> Protocol, w: World<V>, v: V) returns (w': World<V>)
    requires |w.clients| > 1 && w.clients[1].Idle? && |w.items| > 0
    requires w.items[0].lock == Some(0) && w.items[0].data.Some?
    ensures Leads(protos, w, w') && w'.clients == w.clients && |w'.items| == |w.items|
    ensures forall j :: 0 <= j < |w'.items| ==> w'.items[j] == Item(Some(0), Some(v))
  {
    var read, n := w.items[0].data, |w.items|;
    var w1 := World(w.items[0 := Item(Some(1), read)], w.clients[1 := Critical(1, read)], w.history);
    var w2 := World(w1.items, w.clients[1 := Writing(1, read, v, Zeros(n))], w.history);
    var w3 := World(w1.items[0 := Item(Some(0), Some(v))], w.clients[1 := Writing(1, read, v, Stages(n, 1))],
                    w.history + [(read, v)]);
    w' := World(Written(w3.items, 1, v), w.clients, w3.history);
    var s2 := Step(protos(1), w1, 1, Commit(v));
    assert s2.Some? && s2.value.clients == w2.clients;
    hide Step, Leads;
    Join(protos, w, 1, read.value);
    WriteOne(protos, w2, 1, 0);
    assert Zeros(n)[0 := 2] == Stages(n, 1);
    assert w2.clients[1 := Writing(1, read, v, Stages(n, 1))] == w3.clients;
    WriteRest(protos, w3, 1, 1);
    assert w3.clients[1 := Idle] == w.clients;
    LeadsTrans(protos, w2, w3, w');
    LeadsOn(protos, w1, 1, Commit(v), w2, w');
    LeadsTrans(protos, w, w1, w');
  }

  /** Client 0 creates the session everywhere and writes server 0, client 1 runs a whole section, and then client 0
      writes the other servers: while it waited, its locks there read 0, and what it leaves there is older than what
      server 0 has. */
  lemma OthersLag<V(!new)>(protos: Client -> Protocol, servers: nat, clients: nat, v0: V, v1: V)
    returns (during: World<V>, after: World<V>)
    requires servers > 1 && clients > 1
    ensures Leads(protos, Begin(servers, clients), during) && Leads(protos, Begin(servers, clients), after)
    ensures |during.items| == servers && |during.clients| == clients
    ensures forall j :: 0 < j < servers ==> HeldBy(during, j, 0) && during.items[j].lock == Some(0)
    ensures |after.items| == servers && forall c :: 0 <= c < |after.clients| ==> after.clients[c].Idle?
    ensures after.items[0].data == Some(v1) && forall j :: 0 < j < servers ==> after.items[j].data == Some(v0)
  {
    var w1 := FirstSection(protos, servers, clients, v0);
    during := SecondSection(protos, w1, v1);
    WriteRest(protos, during, 0, 1);
    after := World(Written(during.items, 1, v0), during.clients[0 := Idle], during.history);
    hide Leads;
    LeadsTrans(protos, Begin(servers, clients), w1, during);
    LeadsTrans(protos, Begin(servers, clients), during, after);
  }

  // ---------------------------------------------------------------------------------------------------------
  // Exactly

  /** In every interleaving the locks of all servers tell who holds them if and only if there is one server or at most
      one client. */
  lemma LocksTellExactly<V(!new)>(protos: Client -> Protocol, servers: nat, clients: nat, v: V)
    requires servers > 0
    ensures (forall w: World<V> :: Leads(protos, Begin(servers, clients), w) ==> LocksTell(w))
            <==> servers == 1 || clients <= 1
  {
    if servers == 1 || clients <= 1 {
      forall w: World<V> | Leads(protos, Begin(servers, clients), w) ensures LocksTell(w) {
        var script :| Exec(protos, Begin(servers, clients), script) == Some(w);
        FewAreExact(protos, servers, clients, script);
      }
    } else {
      var during, after := OthersLag(protos, servers, clients, v, v);
      hide Leads;
      assert HeldBy(during, 1, 0) && !Positive(during.items[1].lock);
      assert !LocksTell(during);
    }
  }

  /** Once all clients are done, all servers agree on the session's data, in every interleaving, if and only if there
      is one server or at most one client. */
  lemma DataAgreesExactly<V(!new)>(protos: Client -> Protocol, servers: nat, clients: nat, v0: V, v1: V)
    requires servers > 0 && v0 != v1
    ensures (forall w: World<V> :: Leads(protos, Begin(servers, clients), w) ==> DataAgrees(w))
            <==> servers == 1 || clients <= 1
  {
    if servers == 1 || clients <= 1 {
      forall w: World<V> | Leads(protos, Begin(servers, clients), w) ensures DataAgrees(w) {
        var script :| Exec(protos, Begin(servers, clients), script) == Some(w);
        FewAreExact(protos, servers, clients, script);
      }
    } else {
      var during, after := OthersLag(protos, servers, clients, v0, v1);
      hide Leads;
      assert after.items[1].data != after.items[0].data;
      assert !DataAgrees(after);
    }
  }
}
