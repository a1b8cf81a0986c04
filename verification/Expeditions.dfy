/** The expedition tracker: raids in flight and the indexes that describe them. */
module Expeditions {
  import opened Prelude

  type ExpeditionId = string

  datatype ExpeditionStatus = Active | Completed | Failed

  datatype Expedition = Expedition(
    attackers: seq<Wallet>, source: AsteroidId, target: AsteroidId, expiresAt: int,
    status: ExpeditionStatus, bets: map<Wallet, real>, attackPower: real)

  /**
   * `attackerOn` is the reverse index, `incoming` each asteroid's `incomingRaids`, and `current`
   * the miners whose `currentExpeditionId` is set.
   */
  datatype Tracker = Tracker(
    expeditions: map<ExpeditionId, Expedition>, attackerOn: map<Wallet, ExpeditionId>,
    incoming: map<AsteroidId, seq<ExpeditionId>>, current: map<Wallet, ExpeditionId>)

  const CLEANUP_OLDER_THAN_MS := 60 * 60 * 1000

  // ----- The registry's raid lists -----

  function IncomingAt(t: Tracker, a: AsteroidId): seq<ExpeditionId> {
    if a in t.incoming then t.incoming[a] else []
  }

  function AddIncoming(raids: seq<ExpeditionId>, id: ExpeditionId): seq<ExpeditionId> {
    if id in raids then raids else raids + [id]
  }

  function RemoveIncoming(raids: seq<ExpeditionId>, id: ExpeditionId): seq<ExpeditionId> {
    if raids == [] then []
    else
      var rest := RemoveIncoming(raids[..|raids| - 1], id);
      if raids[|raids| - 1] == id then rest else rest + [raids[|raids| - 1]]
  }

  // ----- Operations -----

  /** `allowed` stands for the cooldown, immunity, asteroid and stake checks of the source. */
  predicate CanCreate(t: Tracker, wallet: Wallet, source: AsteroidId, target: AsteroidId, allowed: bool) {
    allowed && source != target && wallet !in t.attackerOn
  }

  function Create(t: Tracker, id: ExpeditionId, wallet: Wallet, source: AsteroidId, target: AsteroidId,
                  power: real, bet: real, expiresAt: int): Tracker {
    Tracker(t.expeditions[id := Expedition([wallet], source, target, expiresAt, Active, map[wallet := bet], power)],
            t.attackerOn[wallet := id],
            t.incoming[target := AddIncoming(IncomingAt(t, target), id)],
            t.current[wallet := id])
  }

  predicate CanJoin(t: Tracker, id: ExpeditionId, wallet: Wallet, allowed: bool) {
    allowed && id in t.expeditions && t.expeditions[id].status.Active? && wallet !in t.attackerOn
  }

  function Join(t: Tracker, id: ExpeditionId, wallet: Wallet, power: real, bet: real): Tracker
    requires id in t.expeditions
  {
    var e := t.expeditions[id];
    t.(expeditions := t.expeditions[id := e.(attackers := e.attackers + [wallet], bets := e.bets[wallet := bet],
                                            attackPower := e.attackPower + power)],
       attackerOn := t.attackerOn[wallet := id], current := t.current[wallet := id])
  }

  predicate CanLeave(t: Tracker, wallet: Wallet) {
    wallet in t.attackerOn && t.attackerOn[wallet] in t.expeditions
  }

  /** `indexOf` followed by `splice`: the first occurrence goes. */
  function Splice(s: seq<Wallet>, w: Wallet): seq<Wallet> {
    if s == [] then [] else if s[0] == w then s[1..] else [s[0]] + Splice(s[1..], w)
  }

  function Leave(t: Tracker, wallet: Wallet): Tracker
    requires CanLeave(t, wallet)
  {
    var id := t.attackerOn[wallet];
    var e := t.expeditions[id];
    var left := e.(attackers := Splice(e.attackers, wallet), bets := e.bets - {wallet});
    var t' := t.(attackerOn := t.attackerOn - {wallet}, current := t.current - {wallet});
    if left.attackers == [] then
      t'.(expeditions := t.expeditions - {id},
          incoming := t.incoming[e.target := RemoveIncoming(IncomingAt(t, e.target), id)])
    else t'.(expeditions := t.expeditions[id := left])
  }

  function Aboard(attackers: seq<Wallet>): set<Wallet> {
    set w | w in attackers
  }

  function Complete(t: Tracker, id: ExpeditionId, success: bool): Tracker
    requires id in t.expeditions
  {
    var e := t.expeditions[id];
    var gone := Aboard(e.attackers);
    Tracker(t.expeditions[id := e.(status := if success then Completed else Failed)],
            t.attackerOn - gone,
            t.incoming[e.target := RemoveIncoming(IncomingAt(t, e.target), id)],
            t.current - gone)
  }

  predicate Stale(e: Expedition, now: int) {
    !e.status.Active? && e.expiresAt < now - CLEANUP_OLDER_THAN_MS
  }

  function DropStale(t: Tracker, now: int): Tracker {
    t.(expeditions := map id | id in t.expeditions && !Stale(t.expeditions[id], now) :: t.expeditions[id])
  }

  predicate Targets(t: Tracker, id: ExpeditionId, a: AsteroidId) {
    id in t.expeditions && t.expeditions[id].status.Active? && t.expeditions[id].target == a
  }

  // ----- Agreement of the indexes -----

  ghost predicate Distinct<T>(s: seq<T>) {
    forall x :: x in s ==> multiset(s)[x] == 1
  }

  /** The wallet's reverse-index entry names an active expedition that lists the wallet. */
  ghost predicate OnActive(t: Tracker, w: Wallet)
    requires w in t.attackerOn
  {
    var id := t.attackerOn[w];
    id in t.expeditions && t.expeditions[id].status.Active? && w in t.expeditions[id].attackers
  }

  /** Someone is aboard, nobody twice, and everybody aboard has a bet entry. */
  ghost predicate Roster(e: Expedition) {
    e.attackers != [] && Distinct(e.attackers) && forall w :: w in e.bets <==> w in e.attackers
  }

  ghost predicate IndexedTo(t: Tracker, id: ExpeditionId, attackers: seq<Wallet>) {
    forall w :: w in attackers ==> w in t.attackerOn && t.attackerOn[w] == id
  }

  /** An active expedition has attackers, each once, each indexed back to it, each with a bet entry. */
  ghost predicate WellManned(t: Tracker, id: ExpeditionId, e: Expedition) {
    Roster(e) && IndexedTo(t, id, e.attackers)
  }

  /** The asteroid's raid list is exactly the active expeditions against it, each once. */
  ghost predicate Listed(t: Tracker, a: AsteroidId) {
    Distinct(IncomingAt(t, a)) && forall id :: id in IncomingAt(t, a) <==> Targets(t, id, a)
  }

  /** The reverse index and the attacker lists are converse. */
  ghost predicate Manned(t: Tracker) {
    && (forall w :: w in t.attackerOn ==> OnActive(t, w))
    && (forall id :: id in t.expeditions && t.expeditions[id].status.Active? ==>
          WellManned(t, id, t.expeditions[id]))
  }

  /** One relation, five descriptions: who is raiding where. */
  ghost predicate Agree(t: Tracker) {
    t.current == t.attackerOn && Manned(t) && forall a :: Listed(t, a)
  }

  lemma EmptyTrackerAgrees()
    ensures Agree(Tracker(map[], map[], map[], map[]))
  {
  }

  lemma {:induction false} RemoveIncomingKeeps(raids: seq<ExpeditionId>, id: ExpeditionId)
    ensures multiset(RemoveIncoming(raids, id)) == multiset(raids)[id := 0]
  {
    if raids != [] {
      var n := |raids| - 1;
      RemoveIncomingKeeps(raids[..n], id);
      assert raids == raids[..n] + [raids[n]];
    }
  }

  lemma {:induction false} SpliceKeeps(s: seq<Wallet>, w: Wallet)
    ensures multiset(Splice(s, w)) == multiset(s) - multiset{w}
  {
    if s != [] {
      assert s == [s[0]] + s[1..];
      SpliceKeeps(s[1..], w);
    }
  }

  lemma RemovedFromList(raids: seq<ExpeditionId>, id: ExpeditionId)
    requires Distinct(raids)
    ensures Distinct(RemoveIncoming(raids, id))
    ensures forall x :: x in RemoveIncoming(raids, id) <==> x in raids && x != id
  {
    RemoveIncomingKeeps(raids, id);
    var rest := RemoveIncoming(raids, id);
    assert forall x :: x in rest <==> x in multiset(rest);
    assert forall x :: x in raids <==> x in multiset(raids);
  }

  lemma SplicedOut(s: seq<Wallet>, w: Wallet)
    requires Distinct(s)
    ensures Distinct(Splice(s, w))
    ensures forall x :: x in Splice(s, w) <==> x in s && x != w
  {
    SpliceKeeps(s, w);
    var rest := Splice(s, w);
    assert forall x :: x in rest <==> x in multiset(rest);
    assert forall x :: x in s <==> x in multiset(s);
  }

  lemma AddedToList(raids: seq<ExpeditionId>, id: ExpeditionId)
    requires Distinct(raids)
    ensures Distinct(AddIncoming(raids, id))
    ensures forall x :: x in AddIncoming(raids, id) <==> x in raids || x == id
  {
  }

  lemma AppendDistinct(s: seq<Wallet>, w: Wallet)
    requires Distinct(s) && w !in s
    ensures Distinct(s + [w])
  {
  }

  /** `e` carries whoever expedition `id` carried, and `wallet`. */
  ghost predicate Enrolled(t: Tracker, id: ExpeditionId, e: Expedition, wallet: Wallet) {
    forall w :: w in e.attackers <==> w == wallet || (id in t.expeditions && w in t.expeditions[id].attackers)
  }

  /** A wallet not yet raiding is written into expedition `id`, new or active. */
  lemma EnrolKeepsManned(t: Tracker, t': Tracker, id: ExpeditionId, e: Expedition, wallet: Wallet)
    requires Manned(t) && wallet !in t.attackerOn
    requires t'.expeditions == t.expeditions[id := e] && t'.attackerOn == t.attackerOn[wallet := id]
    requires e.status.Active? && Roster(e) && Enrolled(t, id, e, wallet)
    requires id in t.expeditions ==> t.expeditions[id].status.Active?
    ensures Manned(t')
  {
    hide Roster;
    forall x | x in t'.expeditions && t'.expeditions[x].status.Active? ensures WellManned(t', x, t'.expeditions[x]) {
      if x in t.expeditions {
        assert WellManned(t, x, t.expeditions[x]);
      }
    }
    forall w | w in t'.attackerOn ensures OnActive(t', w) {
      EnrolKeepsIndex(t, t', id, e, wallet, w);
    }
  }

  lemma EnrolKeepsIndex(t: Tracker, t': Tracker, id: ExpeditionId, e: Expedition, wallet: Wallet, w: Wallet)
    requires w in t'.attackerOn && (w != wallet && w in t.attackerOn ==> OnActive(t, w))
    requires t'.expeditions == t.expeditions[id := e] && t'.attackerOn == t.attackerOn[wallet := id]
    requires e.status.Active? && Enrolled(t, id, e, wallet)
    ensures OnActive(t', w)
  {
  }

  /** Those aboard `id` outside `gone` are exactly those still aboard an active `id`. */
  ghost predicate Remaining(t: Tracker, t': Tracker, id: ExpeditionId, gone: set<Wallet>)
    requires id in t.expeditions
  {
    forall w :: w in t.expeditions[id].attackers && w !in gone <==>
      id in t'.expeditions && t'.expeditions[id].status.Active? && w in t'.expeditions[id].attackers
  }

  /** The wallets in `gone` are taken off expedition `id`, the only one that changes. */
  lemma DischargeKeepsManned(t: Tracker, t': Tracker, id: ExpeditionId, gone: set<Wallet>)
    requires Manned(t) && id in t.expeditions && t.expeditions[id].status.Active?
    requires t'.attackerOn == t.attackerOn - gone
    requires forall w :: w in gone ==> w in t.expeditions[id].attackers
    requires t'.expeditions - {id} == t.expeditions - {id}
    requires id in t'.expeditions && t'.expeditions[id].status.Active? ==> Roster(t'.expeditions[id])
    requires Remaining(t, t', id, gone)
    ensures Manned(t')
  {
    hide Roster;
    assert WellManned(t, id, t.expeditions[id]);
    forall x | x in t'.expeditions && t'.expeditions[x].status.Active? ensures WellManned(t', x, t'.expeditions[x]) {
      if x != id {
        SameExpedition(t, t', id, x);
        assert WellManned(t, x, t.expeditions[x]);
      }
    }
    forall w | w in t'.attackerOn ensures OnActive(t', w) {
      assert OnActive(t, w);
      if t.attackerOn[w] != id {
        SameExpedition(t, t', id, t.attackerOn[w]);
      }
    }
  }

  lemma SameExpedition(t: Tracker, t': Tracker, id: ExpeditionId, x: ExpeditionId)
    requires t'.expeditions - {id} == t.expeditions - {id} && x != id
    ensures x in t.expeditions <==> x in t'.expeditions
    ensures x in t.expeditions ==> t'.expeditions[x] == t.expeditions[x]
  {
    assert x in t.expeditions <==> x in t.expeditions - {id};
    assert x in t'.expeditions <==> x in t'.expeditions - {id};
    assert x in t.expeditions ==> (t.expeditions - {id})[x] == (t'.expeditions - {id})[x];
  }

  lemma ListsUnchanged(t: Tracker, t': Tracker)
    requires forall a :: Listed(t, a)
    requires t'.incoming == t.incoming
    requires forall id, a :: Targets(t', id, a) <==> Targets(t, id, a)
    ensures forall a :: Listed(t', a)
  {
    hide Distinct, Targets;
    forall a ensures Listed(t', a) {
      assert Listed(t, a);
      assert IncomingAt(t', a) == IncomingAt(t, a);
    }
  }

  /** A new expedition is put on its target's list. */
  lemma ListsAfterAddition(t: Tracker, t': Tracker, id: ExpeditionId, target: AsteroidId)
    requires forall a :: Listed(t, a)
    requires t'.incoming == t.incoming[target := AddIncoming(IncomingAt(t, target), id)]
    requires forall x, a :: Targets(t', x, a) <==> Targets(t, x, a) || (x == id && a == target)
    ensures forall a :: Listed(t', a)
  {
    hide Distinct, Targets;
    forall a ensures Listed(t', a) {
      assert Listed(t, a);
      AddedToList(IncomingAt(t, a), id);
    }
  }

  /** One expedition stops being active and its asteroid's list is filtered. */
  lemma ListsAfterRemoval(t: Tracker, t': Tracker, id: ExpeditionId)
    requires forall a :: Listed(t, a)
    requires id in t.expeditions && t.expeditions[id].status.Active?
    requires var a := t.expeditions[id].target; t'.incoming == t.incoming[a := RemoveIncoming(IncomingAt(t, a), id)]
    requires forall x, a :: Targets(t', x, a) <==> Targets(t, x, a) && x != id
    ensures forall a :: Listed(t', a)
  {
    hide Distinct, Targets;
    forall a ensures Listed(t', a) {
      assert Listed(t, a);
      RemovedFromList(IncomingAt(t, a), id);
      if a != t.expeditions[id].target {
        NotElsewhere(t, id, a);
      }
    }
  }

  lemma NotElsewhere(t: Tracker, id: ExpeditionId, a: AsteroidId)
    requires id in t.expeditions && t.expeditions[id].target != a
    ensures !Targets(t, id, a)
  {
  }

  lemma CreateAgrees(t: Tracker, id: ExpeditionId, wallet: Wallet, source: AsteroidId, target: AsteroidId,
                     power: real, bet: real, expiresAt: int)
    requires Agree(t) && id !in t.expeditions && wallet !in t.attackerOn
    ensures Agree(Create(t, id, wallet, source, target, power, bet, expiresAt))
  {
    hide Manned, Listed;
    var t' := Create(t, id, wallet, source, target, power, bet, expiresAt);
    EnrolKeepsManned(t, t', id, t'.expeditions[id], wallet);
    ListsAfterAddition(t, t', id, target);
  }

  lemma JoinedRoster(e: Expedition, e': Expedition, wallet: Wallet)
    requires Roster(e) && wallet !in e.attackers
    requires e'.attackers == e.attackers + [wallet] && e'.bets.Keys == e.bets.Keys + {wallet}
    ensures Roster(e')
  {
    hide Distinct;
    AppendDistinct(e.attackers, wallet);
  }

  lemma JoinKeepsManned(t: Tracker, id: ExpeditionId, wallet: Wallet, power: real, bet: real)
    requires Manned(t) && CanJoin(t, id, wallet, true)
    ensures Manned(Join(t, id, wallet, power, bet))
  {
    hide Roster;
    var t' := Join(t, id, wallet, power, bet);
    assert WellManned(t, id, t.expeditions[id]);
    JoinedRoster(t.expeditions[id], t'.expeditions[id], wallet);
    EnrolKeepsManned(t, t', id, t'.expeditions[id], wallet);
  }

  lemma JoinAgrees(t: Tracker, id: ExpeditionId, wallet: Wallet, power: real, bet: real)
    requires Agree(t) && CanJoin(t, id, wallet, true)
    ensures Agree(Join(t, id, wallet, power, bet))
  {
    hide Listed, Manned;
    JoinKeepsManned(t, id, wallet, power, bet);
    ListsUnchanged(t, Join(t, id, wallet, power, bet));
  }

  lemma LeaveKeepsManned(t: Tracker, wallet: Wallet)
    requires Manned(t) && CanLeave(t, wallet)
    ensures Manned(Leave(t, wallet))
  {
    hide Distinct, Splice, Leave;
    var id := t.attackerOn[wallet];
    assert OnActive(t, wallet) && WellManned(t, id, t.expeditions[id]);
    SplicedOut(t.expeditions[id].attackers, wallet);
    LeaveChanges(t, wallet);
    DischargeKeepsManned(t, Leave(t, wallet), id, {wallet});
  }

  /** Leaving changes one expedition, which goes when nobody is left aboard. */
  lemma LeaveChanges(t: Tracker, wallet: Wallet)
    requires CanLeave(t, wallet)
    ensures var id := t.attackerOn[wallet]; var e := t.expeditions[id]; var t' := Leave(t, wallet);
            && t'.attackerOn == t.attackerOn - {wallet} && t'.expeditions - {id} == t.expeditions - {id}
            && (id in t'.expeditions <==> Splice(e.attackers, wallet) != [])
            && (id in t'.expeditions ==>
                  t'.expeditions[id] == e.(attackers := Splice(e.attackers, wallet), bets := e.bets - {wallet}))
  {
    hide Splice, RemoveIncoming;
  }

  lemma LeaveAgrees(t: Tracker, wallet: Wallet)
    requires Agree(t) && CanLeave(t, wallet)
    ensures Agree(Leave(t, wallet))
  {
    hide Listed, Roster, Splice, IndexedTo;
    LeaveKeepsManned(t, wallet);
    var t' := Leave(t, wallet);
    var id := t.attackerOn[wallet];
    assert OnActive(t, wallet);
    if Splice(t.expeditions[id].attackers, wallet) == [] {
      ListsAfterRemoval(t, t', id);
    } else {
      ListsUnchanged(t, t');
    }
  }

  lemma CompleteAgrees(t: Tracker, id: ExpeditionId, success: bool)
    requires Agree(t) && id in t.expeditions && t.expeditions[id].status.Active?
    ensures Agree(Complete(t, id, success))
  {
    hide Listed, Distinct;
    var t' := Complete(t, id, success);
    assert t'.expeditions - {id} == t.expeditions - {id};
    DischargeKeepsManned(t, t', id, Aboard(t.expeditions[id].attackers));
    ListsAfterRemoval(t, t', id);
  }

  /** Whoever is raiding can leave. */
  lemma RaidersCanLeave(t: Tracker, wallet: Wallet)
    requires Agree(t)
    ensures CanLeave(t, wallet) <==> wallet in t.attackerOn
  {
    hide Listed, WellManned;
    assert wallet in t.attackerOn ==> OnActive(t, wallet);
  }

  lemma CleanupAgrees(t: Tracker, now: int)
    requires Agree(t)
    ensures Agree(DropStale(t, now))
  {
    hide Distinct, Listed;
    var t' := DropStale(t, now);
    forall x | x in t'.expeditions && t'.expeditions[x].status.Active? ensures WellManned(t', x, t'.expeditions[x]) {
      assert WellManned(t, x, t.expeditions[x]);
    }
    forall w | w in t'.attackerOn ensures OnActive(t', w) {
      assert OnActive(t, w);
    }
    ListsUnchanged(t, t');
  }

  // ----- The tracker in place -----

  class ExpeditionTracker {
    var expeditions: map<ExpeditionId, Expedition>
    var attackerExpeditions: map<Wallet, ExpeditionId>
    /** Each asteroid's raid list and each miner's expedition, held by the registry and the stake manager. */
    var incomingRaids: map<AsteroidId, seq<ExpeditionId>>
    var currentExpedition: map<Wallet, ExpeditionId>

    ghost function Contents(): Tracker
      reads this
    {
      Tracker(expeditions, attackerExpeditions, incomingRaids, currentExpedition)
    }

    constructor ()
      ensures Contents() == Tracker(map[], map[], map[], map[])
      ensures Agree(Contents())
    {
      expeditions, attackerExpeditions, incomingRaids, currentExpedition := map[], map[], map[], map[];
      new;
      EmptyTrackerAgrees();
    }

    method AddIncomingRaid(asteroid: AsteroidId, id: ExpeditionId)
      modifies this`incomingRaids
      ensures incomingRaids == old(incomingRaids)[asteroid := AddIncoming(IncomingAt(old(Contents()), asteroid), id)]
    {
      var raids := if asteroid in incomingRaids then incomingRaids[asteroid] else [];
      if id !in raids {
        raids := raids + [id];
      }
      incomingRaids := incomingRaids[asteroid := raids];
    }

    method RemoveIncomingRaid(asteroid: AsteroidId, id: ExpeditionId)
      modifies this`incomingRaids
      ensures incomingRaids == old(incomingRaids)[asteroid := RemoveIncoming(IncomingAt(old(Contents()), asteroid), id)]
    {
      var raids := if asteroid in incomingRaids then incomingRaids[asteroid] else [];
      var kept := [];
      for i := 0 to |raids|
        invariant kept == RemoveIncoming(raids[..i], id)
      {
        assert raids[..i + 1][..i] == raids[..i];
        if raids[i] != id {
          kept := kept + [raids[i]];
        }
      }
      assert raids[..|raids|] == raids;
      incomingRaids := incomingRaids[asteroid := kept];
    }

    /** `allowed` is the outcome of the cooldown, immunity, asteroid and stake checks; `id` is a fresh uuid. */
    method CreateExpedition(id: ExpeditionId, wallet: Wallet, source: AsteroidId, target: AsteroidId,
                            power: real, bet: real, expiresAt: int, allowed: bool) returns (created: bool)
      requires Agree(Contents()) && id !in expeditions
      modifies this
      ensures created == CanCreate(old(Contents()), wallet, source, target, allowed)
      ensures created <==> allowed && source != target && wallet !in old(attackerExpeditions)
      ensures created ==> id in expeditions && expeditions[id].source == source && expeditions[id].target == target
      ensures created ==> expeditions[id].expiresAt == expiresAt && expeditions[id].attackPower == power
      ensures created ==> expeditions[id].bets == map[wallet := bet]
      ensures Contents() == if created then Create(old(Contents()), id, wallet, source, target, power, bet, expiresAt)
                            else old(Contents())
      ensures Agree(Contents())
    {
      hide Agree;
      if source == target || !allowed || wallet in attackerExpeditions {
        return false;
      }
      CreateAgrees(Contents(), id, wallet, source, target, power, bet, expiresAt);
      expeditions := expeditions[id := Expedition([wallet], source, target, expiresAt, Active, map[wallet := bet], power)];
      attackerExpeditions := attackerExpeditions[wallet := id];
      AddIncomingRaid(target, id);
      currentExpedition := currentExpedition[wallet := id];
      return true;
    }

    method JoinExpedition(id: ExpeditionId, wallet: Wallet, power: real, bet: real, allowed: bool) returns (joined: bool)
      requires Agree(Contents())
      modifies this
      ensures joined == CanJoin(old(Contents()), id, wallet, allowed)
      ensures joined ==>
                && allowed && wallet !in old(attackerExpeditions) && id in old(expeditions) && id in expeditions
                && expeditions[id].attackPower == old(expeditions)[id].attackPower + power
      ensures Contents() == if joined then Join(old(Contents()), id, wallet, power, bet) else old(Contents())
      ensures Agree(Contents())
    {
      hide Agree;
      if id !in expeditions || !expeditions[id].status.Active? || wallet in attackerExpeditions || !allowed {
        return false;
      }
      JoinAgrees(Contents(), id, wallet, power, bet);
      var e := expeditions[id];
      e := e.(attackers := e.attackers + [wallet], bets := e.bets[wallet := bet]);
      e := e.(attackPower := e.attackPower + power);
      expeditions := expeditions[id := e];
      attackerExpeditions := attackerExpeditions[wallet := id];
      currentExpedition := currentExpedition[wallet := id];
      return true;
    }

    method LeaveExpedition(wallet: Wallet) returns (left: bool)
      requires Agree(Contents())
      modifies this
      ensures left == CanLeave(old(Contents()), wallet)
      ensures left <==> wallet in old(attackerExpeditions)
      ensures Contents() == if left then Leave(old(Contents()), wallet) else old(Contents())
      ensures Agree(Contents())
    {
      RaidersCanLeave(Contents(), wallet);
      hide Agree, Splice, RemoveIncoming;
      if wallet !in attackerExpeditions || attackerExpeditions[wallet] !in expeditions {
        return false;
      }
      LeaveAgrees(Contents(), wallet);
      var id := attackerExpeditions[wallet];
      var e := expeditions[id];
      e := e.(attackers := Splice(e.attackers, wallet));
      e := e.(bets := e.bets - {wallet});
      attackerExpeditions := attackerExpeditions - {wallet};
      if e.attackers == [] {
        RemoveIncomingRaid(e.target, id);
        expeditions := expeditions - {id};
      } else {
        expeditions := expeditions[id := e];
      }
      currentExpedition := currentExpedition - {wallet};
      return true;
    }

    method CompleteExpedition(id: ExpeditionId, success: bool)
      requires Agree(Contents()) && (id in expeditions ==> expeditions[id].status.Active?)
      modifies this
      ensures Contents() == if id in old(expeditions) then Complete(old(Contents()), id, success) else old(Contents())
      ensures Agree(Contents())
    {
      hide Agree, RemoveIncoming;
      if id !in expeditions {
        return;
      }
      CompleteAgrees(Contents(), id, success);
      var e := expeditions[id];
      expeditions := expeditions[id := e.(status := if success then Completed else Failed)];
      RemoveIncomingRaid(e.target, id);
      ReleaseAttackers(e.attackers);
    }

    /** Every attacker is free again. */
    method ReleaseAttackers(attackers: seq<Wallet>)
      modifies this`attackerExpeditions, this`currentExpedition
      ensures attackerExpeditions == old(attackerExpeditions) - Aboard(attackers)
      ensures currentExpedition == old(currentExpedition) - Aboard(attackers)
    {
      for i := 0 to |attackers|
        invariant attackerExpeditions == old(attackerExpeditions) - Aboard(attackers[..i])
        invariant currentExpedition == old(currentExpedition) - Aboard(attackers[..i])
      {
        attackerExpeditions := attackerExpeditions - {attackers[i]};
        currentExpedition := currentExpedition - {attackers[i]};
        assert Aboard(attackers[..i + 1]) == Aboard(attackers[..i]) + {attackers[i]};
      }
      assert attackers[..|attackers|] == attackers;
    }

    method GetExpeditionsTargeting(asteroid: AsteroidId) returns (ids: set<ExpeditionId>)
      requires Agree(Contents())
      ensures forall id :: id in ids <==> id in IncomingAt(Contents(), asteroid)
      ensures forall id :: id in ids <==> Targets(Contents(), id, asteroid)
    {
      assert Listed(Contents(), asteroid);
      ids := set id | id in expeditions && expeditions[id].target == asteroid && expeditions[id].status.Active?;
    }

    method Cleanup(now: int)
      requires Agree(Contents())
      modifies this`expeditions
      ensures Contents() == DropStale(old(Contents()), now)
      ensures forall id :: id in expeditions <==>
                id in old(expeditions) && (old(expeditions)[id].status.Active? || old(expeditions)[id].expiresAt >= now - 3600000)
      ensures Agree(Contents())
    {
      hide Agree;
      CleanupAgrees(Contents(), now);
      var todo := expeditions.Keys;
      while todo != {}
        invariant todo <= expeditions.Keys
        invariant expeditions == map id | id in old(expeditions) && (id in todo || !Stale(old(expeditions)[id], now))
                                          :: old(expeditions)[id]
        decreases |todo|
      {
        var id :| id in todo;
        if Stale(expeditions[id], now) {
          expeditions := expeditions - {id};
        }
        todo := todo - {id};
      }
    }
  }
}
