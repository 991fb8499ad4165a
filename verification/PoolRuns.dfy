/** The theorems about whole rounds and whole runs of the pool. */
module PoolRuns {
  import opened Basics
  import opened Wrappers
  import opened Sequences
  import opened Routing
  import opened PoolModel
  import opened PoolInvariant
  import opened PoolRound
  import opened PoolTurns
  import opened PoolReconnect

  // ---------------------------------------------------------------------------------------------------------
  // A server's turn to read

  /** Every completed reply of the turn completes well. */
  predicate TurnKept(g: Config, up: set<ServerId>, p: Pool, s: ServerId, outs: seq<ParseOutcome>)
    requires Shaped(g, p) && s < |p.servers|
    decreases |outs|
  {
    p.servers[s].readreq.None? || outs == [] ||
    match outs[0]
    case Again => TurnKept(g, up, p, s, outs[1..])
    case Reply =>
      p.servers[s].wire == []
      || (CompletesWell(g, up, p, s) && TurnKept(g, up, ReadDone(g, up, p, s).0, s, outs[1..]))
    case _ => true
  }

  predicate PhaseKept(g: Config, e: Round, p: Pool, list: seq<ServerId>)
    requires Shaped(g, p) && IdsOk(|p.servers|, list)
    decreases |list|
  {
    list == [] ||
    var s := list[0];
    assert s in list && forall x :: x in list[1..] ==> x in list;
    if p.servers[s].readreq.None? then PhaseKept(g, e, p, list[1..])
    else if s in e.readable then
      TurnKept(g, e.up, p, s, Script(e.parses, s))
      && PhaseKept(g, e, ReadTurn(g, e.up, p, s, Script(e.parses, s)), list[1..])
    else PhaseKept(g, e, StayReading(p, s), list[1..])
  }

  /** Every completed reply of the round completes well: it meets no refused reconnect, or a harmless one. */
  predicate RoundKept(g: Config, e: Round, p: Pool)
    requires Shaped(g, p)
  {
    var (p3, list) := BeforeRead(g, e, p);
    PhaseKept(g, e, p3, list)
  }

  /** How a turn treats the books: no more than one request completes per reply, each against its own reply. */
  lemma {:induction false} ReadTurnOk(g: Config, up: set<ServerId>, p: Pool, s: ServerId, outs: seq<ParseOutcome>,
                                      toRead: set<ServerId>)
    requires s < |p.servers| && s !in toRead
    requires PoolOk(g, p, {}, if p.servers[s].readreq.Some? then toRead + {s} else toRead)
    requires TurnKept(g, up, p, s, outs)
    ensures StepOk(g, up, p, ReadTurn(g, up, p, s, outs), {}, toRead)
    decreases |outs|
  {
    if p.servers[s].readreq.None? {
      AccountedRefl(g, p);
    } else if outs == [] {
      StayOk(g, p, ReadSide, s, {}, toRead);
    } else {
      match outs[0]
      case Malformed => ReadFailOk(g, up, p, s, toRead);
      case More(eof) =>
        if eof { ReadFailOk(g, up, p, s, toRead); } else { StayOk(g, p, ReadSide, s, {}, toRead); }
      case Again => ReadTurnOk(g, up, p, s, outs[1..], toRead);
      case Reply =>
        if p.servers[s].wire == [] {
          StayOk(g, p, ReadSide, s, {}, toRead);
        } else {
          assert Reading(g, p, s, toRead);
          ReadingServer(g, p, s, toRead);
          CompletesOk(g, up, p, s, toRead);
          var p1 := ReadDone(g, up, p, s).0;
          ReadTurnOk(g, up, p1, s, outs[1..], toRead);
          AccountedTrans(g, p, p1, ReadTurn(g, up, p1, s, outs[1..]));
        }
    }
  }

  lemma ReadFailOk(g: Config, up: set<ServerId>, p: Pool, s: ServerId, toRead: set<ServerId>)
    requires s < |p.servers| && s !in toRead && p.servers[s].readreq.Some?
    requires PoolOk(g, p, {}, toRead + {s})
    ensures StepOk(g, up, p, Fail(g, up, p, s, ReadSide), {}, toRead)
  {
    assert Shaped(g, p);
    hide PoolOk, Accounted, NewLive, Fail, Undisturbed;
    FailOk(g, up, p, s, ReadSide, {}, toRead + {s});
    SkipFailed(g, Fail(g, up, p, s, ReadSide), s, {}, toRead + {s});
    assert toRead + {s} - {s} == toRead;
    var none: set<ServerId> := {};
    assert none - {s} == {};
  }

  lemma {:induction false} ReadPhaseOk(g: Config, e: Round, p: Pool, list: seq<ServerId>)
    requires NoDuplicates(list) && IdsOk(|p.servers|, list)
    requires PoolOk(g, p, {}, Set(list)) && PhaseKept(g, e, p, list)
    ensures StepOk(g, e.up, p, ReadPhase(g, e, p, list), {}, {})
    decreases |list|
  {
    if list == [] {
      AccountedRefl(g, p);
      assert Set(list) == {};
    } else {
      var s, rest := list[0], list[1..];
      assert s in list && forall x :: x in rest ==> x in list;
      SetTail(list);
      var none: set<ServerId> := {};
      assert none - {s} == {};
      if p.servers[s].readreq.None? {
        EmptyIsFailed(g, p, ReadSide, s, {}, Set(list));
        SkipFailed(g, p, s, {}, Set(list));
        ReadPhaseOk(g, e, p, rest);
      } else if s in e.readable {
        ReadTurnOk(g, e.up, p, s, Script(e.parses, s), Set(rest));
        var p1 := ReadTurn(g, e.up, p, s, Script(e.parses, s));
        ReadPhaseOk(g, e, p1, rest);
        AccountedTrans(g, p, p1, ReadPhase(g, e, p1, rest));
      } else {
        StayOk(g, p, ReadSide, s, {}, Set(rest));
        var p1 := StayReading(p, s);
        ReadPhaseOk(g, e, p1, rest);
        AccountedTrans(g, p, p1, ReadPhase(g, e, p1, rest));
      }
    }
  }

  // ---------------------------------------------------------------------------------------------------------
  // The round and the run

  /** The lists taken for the round are what there is to visit: `mine` on one side, `other` on the other. */
  ghost predicate RoundOk(g: Config, p: Pool, side: Side, mine: seq<ServerId>, other: seq<ServerId>) {
    && NoDuplicates(mine) && NoDuplicates(other)
    && (forall s :: s in mine || s in other ==> s < |p.servers| && p.servers[s].status.Connected?)
    && if side.SendSide? then PoolOk(g, p, Set(mine), Set(other)) else PoolOk(g, p, Set(other), Set(mine))
  }

  lemma {:induction false} DropUnreadyOk(g: Config, up: set<ServerId>, p: Pool, side: Side, ready: set<ServerId>,
                                         kept: seq<ServerId>, list: seq<ServerId>, other: seq<ServerId>)
    requires RoundOk(g, p, side, kept + list, other) && IdsOk(|p.servers|, list)
    ensures var (p', mine, rest) := DropUnready(g, up, p, side, ready, kept, list, other);
            RoundOk(g, p', side, mine, rest) && Accounted(g, p, p') && NewLive(up, p, p')
    decreases |list|
  {
    if list == [] {
      assert kept + list == kept;
      AccountedRefl(g, p);
    } else {
      var s := list[0];
      assert s in list && forall x :: x in list[1..] ==> x in list;
      if s in ready {
        assert kept + list == (kept + [s]) + list[1..];
        DropUnreadyOk(g, up, p, side, ready, kept + [s], list[1..], other);
      } else {
        DropOneOk(g, up, p, side, kept, list, other);
        var p1 := Fail(g, up, p, s, side);
        DropUnreadyOk(g, up, p1, side, ready, kept, list[1..], Without(other, s));
        AccountedTrans(g, p, p1, DropUnready(g, up, p1, side, ready, kept, list[1..], Without(other, s)).0);
      }
    }
  }

  lemma ListedSlot(g: Config, p: Pool, side: Side, mine: seq<ServerId>, other: seq<ServerId>, s: ServerId)
    requires RoundOk(g, p, side, mine, other) && s in mine
    ensures s < |p.servers| && SlotOf(side, p.servers[s]).Some?
  {
  }

  lemma SlotFilled(side: Side, v: Server)
    ensures SlotOf(side, v).Some? ==> v.sendreq.Some? || v.readreq.Some?
  {
  }

  lemma DropOneOk(g: Config, up: set<ServerId>, p: Pool, side: Side,
                  kept: seq<ServerId>, list: seq<ServerId>, other: seq<ServerId>)
    requires list != [] && RoundOk(g, p, side, kept + list, other) && list[0] < |p.servers|
    ensures var p' := Fail(g, up, p, list[0], side);
            && RoundOk(g, p', side, kept + list[1..], Without(other, list[0]))
            && Accounted(g, p, p') && NewLive(up, p, p')
  {
    assert (kept + list)[|kept|] == list[0] && list[0] in kept + list;
    assert NoDuplicates(kept + list) && NoDuplicates(other);
    hide RoundOk, Fail, NoDuplicates, Set;
    DropLists(kept, list, other);
    DropFrom(g, up, p, side, kept + list, other, list[0], kept + list[1..], Without(other, list[0]));
  }

  /** The server leaves both lists, which become a and b. */
  lemma DropFrom(g: Config, up: set<ServerId>, p: Pool, side: Side, mine: seq<ServerId>, other: seq<ServerId>,
                 s: ServerId, a: seq<ServerId>, b: seq<ServerId>)
    requires RoundOk(g, p, side, mine, other) && s in mine
    requires NoDuplicates(a) && NoDuplicates(b) && Set(a) == Set(mine) - {s} && Set(b) == Set(other) - {s}
    requires forall x :: x in a || x in b ==> x != s && (x in mine || x in other)
    ensures s < |p.servers|
    ensures var p' := Fail(g, up, p, s, side);
            RoundOk(g, p', side, a, b) && Accounted(g, p, p') && NewLive(up, p, p')
  {
    hide *;
    ListedSlot(g, p, side, mine, other, s);
    RoundParts(g, p, side, mine, other);
    SlotFilled(side, p.servers[s]);
    var (w, r) := if side.SendSide? then (Set(mine), Set(other)) else (Set(other), Set(mine));
    DropFails(g, up, p, s, side, w, r);
    StillConnected(p, Fail(g, up, p, s, side), s, a, b);
    RoundMade(g, Fail(g, up, p, s, side), side, a, b);
  }

  lemma RoundParts(g: Config, p: Pool, side: Side, mine: seq<ServerId>, other: seq<ServerId>)
    requires RoundOk(g, p, side, mine, other)
    ensures forall x :: x in mine || x in other ==> x < |p.servers| && p.servers[x].status.Connected?
    ensures var (w, r) := if side.SendSide? then (Set(mine), Set(other)) else (Set(other), Set(mine));
            PoolOk(g, p, w, r) && Shaped(g, p)
  {
    hide Set, NoDuplicates, ServersOk, LengthsOk, Exclusive, Awake, Attributed;
    assert Shaped(g, p);
    hide Shaped;
  }

  lemma RoundMade(g: Config, p: Pool, side: Side, mine: seq<ServerId>, other: seq<ServerId>)
    requires NoDuplicates(mine) && NoDuplicates(other)
    requires forall x :: x in mine || x in other ==> x < |p.servers| && p.servers[x].status.Connected?
    requires var (w, r) := if side.SendSide? then (Set(mine), Set(other)) else (Set(other), Set(mine));
             PoolOk(g, p, w, r)
    ensures RoundOk(g, p, side, mine, other)
  {
    hide PoolOk, Set, NoDuplicates;
  }

  /** Taking `list[0]` off both lists. */
  lemma DropLists(kept: seq<ServerId>, list: seq<ServerId>, other: seq<ServerId>)
    requires list != [] && NoDuplicates(kept + list) && NoDuplicates(other)
    ensures var s, a, b := list[0], kept + list[1..], Without(other, list[0]);
            && NoDuplicates(a) && Set(a) == Set(kept + list) - {s}
            && NoDuplicates(b) && Set(b) == Set(other) - {s}
            && (forall x :: x in a || x in b ==> x != s && (x in kept + list || x in other))
  {
    SetWithout(other, list[0]);
    CutOne(kept, list);
    hide NoDuplicates;
  }

  lemma DropFails(g: Config, up: set<ServerId>, p: Pool, s: ServerId, side: Side, w: set<ServerId>, r: set<ServerId>)
    requires PoolOk(g, p, w, r) && s < |p.servers|
    requires p.servers[s].sendreq.Some? || p.servers[s].readreq.Some?
    ensures var p' := Fail(g, up, p, s, side);
            && PoolOk(g, p', w - {s}, r - {s}) && Accounted(g, p, p') && NewLive(up, p, p')
              && |p'.servers| == |p.servers|
            && forall t :: 0 <= t < |p.servers| && t != s ==> Undisturbed(p, p', t)
  {
    assert Shaped(g, p);
    hide PoolOk, Accounted, Undisturbed, NewLive;
    FailOk(g, up, p, s, side, w, r);
    SkipFailed(g, Fail(g, up, p, s, side), s, w, r);
    assert NewLive(up, p, Fail(g, up, p, s, side)) ==> |Fail(g, up, p, s, side).servers| == |p.servers| by {
      SameCount(up, p, Fail(g, up, p, s, side));
    }
  }

  lemma SameCount(up: set<ServerId>, p: Pool, p': Pool)
    ensures NewLive(up, p, p') ==> |p'.servers| == |p.servers|
  {
  }

  lemma StillConnected(p: Pool, p': Pool, s: ServerId, a: seq<ServerId>, b: seq<ServerId>)
    requires |p'.servers| == |p.servers|
    requires forall t :: 0 <= t < |p.servers| && t != s ==> Undisturbed(p, p', t)
    requires forall x :: x in a || x in b ==> x != s && x < |p.servers| && p.servers[x].status.Connected?
    ensures forall x :: x in a || x in b ==> x < |p'.servers| && p'.servers[x].status.Connected?
  {
    forall x | x in a || x in b ensures x < |p'.servers| && p'.servers[x].status.Connected? {
      assert Undisturbed(p, p', x);
    }
  }

  lemma CutOne(kept: seq<ServerId>, list: seq<ServerId>)
    requires list != [] && NoDuplicates(kept + list)
    ensures NoDuplicates(kept + list[1..]) && Set(kept + list[1..]) == Set(kept + list) - {list[0]}
    ensures list[0] !in kept + list[1..]
  {
    var a, b := kept + list, kept + list[1..];
    assert a[|kept|] == list[0];
    forall i, j | 0 <= i < j < |b| ensures b[i] != b[j] {
      var i', j' := if i < |kept| then i else i + 1, if j < |kept| then j else j + 1;
      assert b[i] == a[i'] && b[j] == a[j'];
    }
    forall x ensures x in Set(a) - {list[0]} <==> x in Set(b) {
      if x in a && x != list[0] {
        var i :| 0 <= i < |a| && a[i] == x;
        assert x == if i < |kept| then b[i] else b[i - 1];
      }
      if x in b {
        var i :| 0 <= i < |b| && b[i] == x;
        assert x == if i < |kept| then a[i] else a[i + 1];
      }
    }
  }

  /** Between rounds. */
  ghost predicate Settled(g: Config, p: Pool) {
    PoolOk(g, p, {}, {})
  }

  lemma SwitchOk(g: Config, p: Pool)
    requires Settled(g, p)
    ensures RoundOk(g, p.(sending := [], reading := []), SendSide, p.sending, p.reading)
    ensures Accounted(g, p, p.(sending := [], reading := []))
    ensures IdsOk(|p.servers|, p.sending) && IdsOk(|p.servers|, p.reading)
  {
    var p0 := p.(sending := [], reading := []);
    assert forall t, x :: On(p0, t, x) <==> On(p, t, x);
    assert ServersOk(p0);
    forall s | s in p.sending || s in p.reading ensures p.servers[s].status.Connected? {
      FailureIsHard(g, p, s, {}, {});
      assert ServerOk(p.requests, s, p.servers[s]);
    }
  }

  /** One round keeps the invariant, so at every round boundary a server is listed for sending iff its send slot is
      filled and for reading iff its read slot is filled, whatever failed and was rescheduled in between. */
  lemma SelectOk(g: Config, e: Round, p: Pool)
    requires Settled(g, p) && RoundKept(g, e, p)
    ensures Settled(g, Select(g, e, p)) && Accounted(g, p, Select(g, e, p))
  {
    BeforeReadOk(g, e, p);
    var (p3, left) := BeforeRead(g, e, p);
    hide BeforeRead, ReadPhase;
    ReadPhaseOk(g, e, p3, left);
    AccountedTrans(g, p, p3, ReadPhase(g, e, p3, left));
  }

  lemma BeforeReadOk(g: Config, e: Round, p: Pool)
    requires Settled(g, p)
    ensures var (p3, left) := BeforeRead(g, e, p); StepOk(g, e.up, p, p3, {}, Set(left)) && NoDuplicates(left)
  {
    SwitchOk(g, p);
    hide PoolOk, ServersOk, Shaped, NoDuplicates, Set, DropUnready, SendPhase, Tracked, GaveUp, Answered;
    var p0 := p.(sending := [], reading := []);
    var p2, sending, reading := p0, p.sending, p.reading;
    if e.nothingReady {
      assert [] + p.sending == p.sending;
      DropUnreadyOk(g, e.up, p0, SendSide, e.writable, [], p.sending, p.reading);
      var (p1, s1, r1) := DropUnready(g, e.up, p0, SendSide, e.writable, [], p.sending, p.reading);
      assert [] + r1 == r1;
      DropUnreadyOk(g, e.up, p1, ReadSide, e.readable, [], r1, s1);
      AccountedTrans(g, p, p0, p1);
      var (q, r2, s2) := DropUnready(g, e.up, p1, ReadSide, e.readable, [], r1, s1);
      AccountedTrans(g, p, p1, q);
      p2, sending, reading := q, s2, r2;
    }
    SendPhaseOk(g, e, p2, sending, reading);
    AccountedTrans(g, p, p2, SendPhase(g, e, p2, sending, reading).0);
  }

  /** Servers with a live connection accept another one at once. */
  ghost predicate LiveUp(up: set<ServerId>, p: Pool) {
    forall s :: 0 <= s < |p.servers| && p.servers[s].status.Connected? ==> s in up
  }

  /** It is enough that at the start of the round every connected server would accept another connection. */
  lemma LiveUpKeeps(g: Config, e: Round, p: Pool)
    requires Settled(g, p) && LiveUp(e.up, p)
    ensures RoundKept(g, e, p)
  {
    BeforeReadOk(g, e, p);
    var (p3, left) := BeforeRead(g, e, p);
    hide BeforeRead;
    LiveUpPhase(g, e, p3, left);
  }

  lemma StaysLive(up: set<ServerId>, p: Pool, p': Pool)
    requires LiveUp(up, p) && NewLive(up, p, p')
    ensures LiveUp(up, p')
  {
  }

  lemma {:induction false} LiveUpTurn(g: Config, up: set<ServerId>, p: Pool, s: ServerId, outs: seq<ParseOutcome>,
                                      toRead: set<ServerId>)
    requires s < |p.servers| && s !in toRead && LiveUp(up, p)
    requires PoolOk(g, p, {}, if p.servers[s].readreq.Some? then toRead + {s} else toRead)
    ensures TurnKept(g, up, p, s, outs)
    decreases |outs|
  {
    if p.servers[s].readreq.Some? && outs != [] {
      if outs[0].Again? {
        LiveUpTurn(g, up, p, s, outs[1..], toRead);
      } else if outs[0].Reply? && p.servers[s].wire != [] {
        assert Reading(g, p, s, toRead) && Shaped(g, p);
        ReadingServer(g, p, s, toRead);
        assert !LostReconnect(up, p, s);
        CompletesOk(g, up, p, s, toRead);
        hide PoolOk, Shaped, ReadDone, Accounted, LiveUp, NewLive;
        StaysLive(up, p, ReadDone(g, up, p, s).0);
        LiveUpTurn(g, up, ReadDone(g, up, p, s).0, s, outs[1..], toRead);
      }
    }
  }

  lemma {:induction false} LiveUpPhase(g: Config, e: Round, p: Pool, list: seq<ServerId>)
    requires NoDuplicates(list) && IdsOk(|p.servers|, list) && LiveUp(e.up, p) && PoolOk(g, p, {}, Set(list))
    ensures PhaseKept(g, e, p, list)
    decreases |list|
  {
    if list != [] {
      var s, rest := list[0], list[1..];
      assert s in list && forall x :: x in rest ==> x in list;
      SetTail(list);
      var none: set<ServerId> := {};
      assert none - {s} == {};
      if p.servers[s].readreq.None? {
        EmptyIsFailed(g, p, ReadSide, s, {}, Set(list));
        SkipFailed(g, p, s, {}, Set(list));
        hide PoolOk, Set, LiveUp;
        LiveUpPhase(g, e, p, rest);
      } else if s in e.readable {
        LiveUpTurn(g, e.up, p, s, Script(e.parses, s), Set(rest));
        ReadTurnOk(g, e.up, p, s, Script(e.parses, s), Set(rest));
        assert Shaped(g, p);
        hide PoolOk, Shaped, Set, ReadTurn, TurnKept, Accounted;
        LiveUpPhase(g, e, ReadTurn(g, e.up, p, s, Script(e.parses, s)), rest);
      } else {
        StayOk(g, p, ReadSide, s, {}, Set(rest));
        LiveUpPhase(g, e, StayReading(p, s), rest);
      }
    }
  }

  /** mmc_pool_run, as far as the rounds `es` go; it stops early once no server is listed. */
  function Run(g: Config, es: seq<Round>, p: Pool): (p': Pool)
    requires Shaped(g, p)
    ensures Shaped(g, p')
  {
    if es == [] || (p.sending == [] && p.reading == []) then p else Run(g, es[1..], Select(g, es[0], p))
  }

  /** Rounds, one after the other. */
  function Rounds(g: Config, es: seq<Round>, p: Pool): (p': Pool)
    requires Shaped(g, p)
    ensures Shaped(g, p')
  {
    if es == [] then p else Rounds(g, es[1..], Select(g, es[0], p))
  }

  lemma {:induction false} RoundsOn(g: Config, es: seq<Round>, e: Round, p: Pool)
    requires Shaped(g, p)
    ensures Rounds(g, es + [e], p) == Select(g, e, Rounds(g, es, p))
    decreases |es|
  {
    hide Select;
    if es == [] {
      assert es + [e] == [e] && [e][1..] == [];
      assert Rounds(g, [], Select(g, e, p)) == Select(g, e, p);
    } else {
      assert (es + [e])[0] == es[0] && (es + [e])[1..] == es[1..] + [e];
      RoundsOn(g, es[1..], e, Select(g, es[0], p));
    }
  }

  /** Some server is listed for sending or for reading. */
  predicate Listing(p: Pool) { p.sending != [] || p.reading != [] }

  /** A run that is at pool q after its first k rounds. */
  ghost predicate Ran(g: Config, es: seq<Round>, p: Pool, k: nat, q: Pool)
    requires Shaped(g, p)
  {
    && k <= |es| && Shaped(g, q) && q == Rounds(g, es[..k], p) && Run(g, es[k..], q) == Run(g, es, p)
    && forall i | 0 <= i < k :: Listing(Rounds(g, es[..i], p))
  }

  lemma RanNone(g: Config, es: seq<Round>, p: Pool)
    requires Shaped(g, p)
    ensures Ran(g, es, p, 0, p)
  {
    assert es[..0] == [] && es[0..] == es;
  }

  lemma RanOn(g: Config, es: seq<Round>, p: Pool, k: nat, q: Pool)
    requires Shaped(g, p) && Ran(g, es, p, k, q) && k < |es| && Listing(q)
    ensures Shaped(g, q) && Ran(g, es, p, k + 1, Select(g, es[k], q))
  {
    hide Select;
    assert es[..k + 1] == es[..k] + [es[k]];
    RoundsOn(g, es[..k], es[k], p);
    assert es[k..][0] == es[k] && es[k..][1..] == es[k + 1..];
  }

  lemma RanAll(g: Config, es: seq<Round>, p: Pool, k: nat, q: Pool)
    requires Shaped(g, p) && Ran(g, es, p, k, q) && (k == |es| || !Listing(q))
    ensures q == Rounds(g, es[..k], p) && q == Run(g, es, p) && k <= |es|
    ensures forall i | 0 <= i < k ::
              Rounds(g, es[..i], p).sending != [] || Rounds(g, es[..i], p).reading != []
  {
    if k == |es| { assert es[k..] == []; }
  }

  /** How far a run goes: some server is listed before each of its rounds, and it stops only where none is or where no
      more rounds are given. */
  lemma {:induction false} RunExactly(g: Config, es: seq<Round>, p: Pool) returns (k: nat)
    requires Shaped(g, p)
    ensures k <= |es| && Run(g, es, p) == Rounds(g, es[..k], p)
    ensures forall i | 0 <= i < k :: Listing(Rounds(g, es[..i], p))
    ensures k == |es| || !Listing(Rounds(g, es[..k], p))
    decreases |es|
  {
    hide Select;
    if es == [] || !Listing(p) {
      k := 0;
      assert es[..0] == [];
    } else {
      var p1 := Select(g, es[0], p);
      var m := RunExactly(g, es[1..], p1);
      k := m + 1;
      forall i | 0 < i <= k ensures Rounds(g, es[..i], p) == Rounds(g, es[1..][..i - 1], p1) {
        assert es[..i][0] == es[0] && es[..i][1..] == es[1..][..i - 1];
      }
      assert es[..0] == [] && Rounds(g, [], p) == p;
    }
  }

  /** In every round of the run the completed replies complete well. */
  predicate RunKept(g: Config, es: seq<Round>, p: Pool)
    requires Shaped(g, p)
  {
    es == [] || (p.sending == [] && p.reading == [])
    || (RoundKept(g, es[0], p) && RunKept(g, es[1..], Select(g, es[0], p)))
  }

  lemma {:induction false} RunOk(g: Config, es: seq<Round>, p: Pool)
    requires Settled(g, p) && RunKept(g, es, p)
    ensures Settled(g, Run(g, es, p)) && Accounted(g, p, Run(g, es, p))
    decreases |es|
  {
    if es == [] || (p.sending == [] && p.reading == []) {
      AccountedRefl(g, p);
    } else {
      SelectOk(g, es[0], p);
      var p1 := Select(g, es[0], p);
      hide Select, RoundKept, PoolOk, Accounted;
      RunOk(g, es[1..], p1);
      AccountedTrans(g, p, p1, Run(g, es[1..], p1));
    }
  }

  /** When the run's loop ends because both lists are empty, every request that was on a server is in the free list
      and is there for a reason: its own reply was read, or nothing was left to fail over to. */
  lemma RunCompletes(g: Config, es: seq<Round>, p: Pool, r: RequestId)
    requires Settled(g, p) && RunKept(g, es, p) && Tracked(p, r)
    requires Run(g, es, p).sending == [] && Run(g, es, p).reading == []
    ensures var p' := Run(g, es, p);
            && (forall s :: 0 <= s < |p'.servers| ==> SendLine(p'.servers[s]) == [] && ReadLine(p'.servers[s]) == [])
            && r in p'.free
            && (r in p.free || Answered(p, p', r) || GaveUp(g, p', r))
  {
    RunOk(g, es, p);
    var p' := Run(g, es, p);
    hide Run, RunKept, Settled, ReadLine, SendLine, GaveUp, Answered, On;
    NothingListed(g, p');
    assert Tracked(p', r);
  }

  /** No server is listed: no server holds anything. */
  lemma NothingListed(g: Config, p: Pool)
    requires Settled(g, p) && p.sending == [] && p.reading == []
    ensures forall s :: 0 <= s < |p.servers| ==> SendLine(p.servers[s]) == [] && ReadLine(p.servers[s]) == []
    ensures forall s, r :: !On(p, s, r)
  {
    forall s | 0 <= s < |p.servers| ensures SendLine(p.servers[s]) == [] && ReadLine(p.servers[s]) == [] {
      assert ServerOk(p.requests, s, p.servers[s]);
      assert SlotOf(SendSide, p.servers[s]).None? && SlotOf(ReadSide, p.servers[s]).None?;
    }
  }

  /** Every reply of the run was read by the request it answers. */
  lemma RunAttributes(g: Config, es: seq<Round>, p: Pool)
    requires Settled(g, p) && RunKept(g, es, p)
    ensures p.log <= Run(g, es, p).log && forall e :: e in Run(g, es, p).log ==> e.0 == e.1
  {
    RunOk(g, es, p);
  }

  // ---------------------------------------------------------------------------------------------------------
  // Where runs start

  /** A pool after mmc_pool_add for each of its servers: nothing is connected, nothing is scheduled. */
  function NewPool(g: Config): Pool {
    Pool(seq(g.numServers, _ => Server(Disconnected, None, [], None, [], [])), [], [], [], [], [])
  }

  lemma NewPoolSettled(g: Config)
    requires ConfigOk(g)
    ensures Settled(g, NewPool(g))
    ensures forall s :: 0 <= s < g.numServers ==> NewPool(g).servers[s] == Server(Disconnected, None, [], None, [], [])
    ensures NewPool(g).requests == [] && NewPool(g).free == [] && NewPool(g).log == [] && !Listing(NewPool(g))
  {
    var p := NewPool(g);
    forall s | 0 <= s < |p.servers| ensures ServerOk(p.requests, s, p.servers[s]) {
      assert ReadLine(p.servers[s]) == [] && SendLine(p.servers[s]) == [];
    }
  }
}
