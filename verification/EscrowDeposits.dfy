/**
 * What the escrow's solvency asks of the deposits it accepts: a transaction of its own for each wager.
 */
module EscrowDeposits {
  import opened Prelude
  import opened Outbox
  import opened EscrowTreasury

  // ----- The deposits of a run -----

  function DepositsOf(actions: seq<Action>): seq<Action> {
    if actions == [] then []
    else
      var last := actions[|actions| - 1];
      DepositsOf(actions[..|actions| - 1]) + (if last.Deposit? then [last] else [])
  }

  function Signatures(deposits: seq<Action>): set<Signature> {
    set i | 0 <= i < |deposits| && deposits[i].Deposit? :: deposits[i].signature
  }

  /** No two of the deposits were verified on the same transaction. */
  ghost predicate DistinctTransactions(deposits: seq<Action>) {
    forall i, j :: 0 <= i < j < |deposits| && deposits[i].Deposit? && deposits[j].Deposit? ==>
      deposits[i].signature != deposits[j].signature
  }

  /** A list of deposits the escrow can accept one after the other: fresh wagers of at least one raw unit. */
  ghost predicate Acceptable(deposits: seq<Action>, unit: real) {
    && (forall i :: 0 <= i < |deposits| ==>
          deposits[i].Deposit? && deposits[i].amount > 0.0 && Raw(deposits[i].amount, unit) > 0.0)
    && forall i, j :: 0 <= i < j < |deposits| ==> deposits[i].id != deposits[j].id
  }

  /** Every burn of the run is decided on fresh figures; nothing is asked of its deposits. */
  ghost predicate AllFreshBurns(s: System, actions: seq<Action>, unit: real, maxRetries: nat)
    requires ActAll(s, actions, unit, maxRetries).Some?
  {
    actions == []
    || (var before := actions[..|actions| - 1];
        && FreshBurn(ActAll(s, before, unit, maxRetries).value, actions[|actions| - 1], unit)
        && AllFreshBurns(s, before, unit, maxRetries))
  }

  lemma ActUses(s: System, a: Action, unit: real, maxRetries: nat)
    requires Possible(s, a, unit)
    ensures Act(s, a, unit, maxRetries).used == s.used + (if a.Deposit? then {a.signature} else {})
  {
    hide Owed, Step, Raw, LegRaw, Brought;
  }

  lemma SignaturesMore(deposits: seq<Action>, a: Action)
    requires a.Deposit?
    ensures Signatures(deposits + [a]) == Signatures(deposits) + {a.signature}
  {
    var more := deposits + [a];
    forall x | x in Signatures(deposits) + {a.signature} ensures x in Signatures(more) {
      if x == a.signature {
        assert more[|deposits|].signature == x;
      } else {
        var i :| 0 <= i < |deposits| && deposits[i].Deposit? && deposits[i].signature == x;
        assert more[i].signature == x;
      }
    }
  }

  lemma {:induction false} UsedAreSignatures(balance: real, actions: seq<Action>, unit: real, maxRetries: nat)
    requires ActAll(EmptyEscrow(balance), actions, unit, maxRetries).Some?
    ensures ActAll(EmptyEscrow(balance), actions, unit, maxRetries).value.used == Signatures(DepositsOf(actions))
  {
    hide Act, Possible, Signatures;
    if actions == [] {
      NoSignatures();
    } else {
      var before, a := actions[..|actions| - 1], actions[|actions| - 1];
      UsedAreSignatures(balance, before, unit, maxRetries);
      ActUses(ActAll(EmptyEscrow(balance), before, unit, maxRetries).value, a, unit, maxRetries);
      if a.Deposit? {
        SignaturesMore(DepositsOf(before), a);
      } else {
        assert DepositsOf(before) + [] == DepositsOf(before);
      }
    }
  }

  lemma NoSignatures()
    ensures Signatures([]) == {}
  {
  }

  lemma DistinctPrefix(deposits: seq<Action>, a: Action)
    requires DistinctTransactions(deposits + [a]) && a.Deposit?
    ensures DistinctTransactions(deposits) && a.signature !in Signatures(deposits)
  {
    var more := deposits + [a];
    assert forall i :: 0 <= i < |deposits| ==> more[i] == deposits[i];
    assert more[|deposits|] == a;
  }

  /** A run whose deposits have distinct transactions accepts each on a new one. */
  lemma {:induction false} DistinctIsFresh(balance: real, actions: seq<Action>, unit: real, maxRetries: nat)
    requires ActAll(EmptyEscrow(balance), actions, unit, maxRetries).Some?
    requires AllFreshBurns(EmptyEscrow(balance), actions, unit, maxRetries) && DistinctTransactions(DepositsOf(actions))
    ensures AllFresh(EmptyEscrow(balance), actions, unit, maxRetries)
  {
    hide Act, Possible, Signatures, FreshBurn, DistinctTransactions;
    if actions != [] {
      var before, a := actions[..|actions| - 1], actions[|actions| - 1];
      UsedAreSignatures(balance, before, unit, maxRetries);
      if a.Deposit? {
        DistinctPrefix(DepositsOf(before), a);
      } else {
        assert DepositsOf(before) + [] == DepositsOf(before);
      }
      DistinctIsFresh(balance, before, unit, maxRetries);
    }
  }

  // ----- Accepting deposits and nothing else -----

  /** Raw units that accepted wagers are owed and that their transactions did not bring. */
  function Unfunded(deposits: seq<Action>, unit: real): real {
    if deposits == [] then 0.0
    else
      var before, a := deposits[..|deposits| - 1], deposits[|deposits| - 1];
      Unfunded(before, unit) + (if a.Deposit? && a.signature in Signatures(before) then Raw(a.amount, unit) else 0.0)
  }

  lemma AcceptablePrefix(deposits: seq<Action>, unit: real)
    requires Acceptable(deposits, unit) && deposits != []
    ensures Acceptable(deposits[..|deposits| - 1], unit)
    ensures var a := deposits[|deposits| - 1];
            a.Deposit? && a.amount > 0.0 && Raw(a.amount, unit) > 0.0
            && forall i :: 0 <= i < |deposits| - 1 ==> deposits[i].id != a.id
  {
  }

  lemma {:induction false} OnlyDeposits(deposits: seq<Action>, unit: real)
    requires Acceptable(deposits, unit)
    ensures DepositsOf(deposits) == deposits
  {
    hide Acceptable, DepositsOf;
    DepositsUnfold(deposits);
    if deposits != [] {
      AcceptablePrefix(deposits, unit);
      OnlyDeposits(deposits[..|deposits| - 1], unit);
      assert deposits[..|deposits| - 1] + [deposits[|deposits| - 1]] == deposits;
    }
  }

  lemma DepositsUnfold(actions: seq<Action>)
    ensures actions == [] ==> DepositsOf(actions) == []
    ensures actions != [] ==>
              var before, last := DepositsOf(actions[..|actions| - 1]), actions[|actions| - 1];
              DepositsOf(actions) == if last.Deposit? then before + [last] else before
  {
  }

  /** Accepting the deposits one after the other is a run, and what it leaves unfunded is missing in the balance. */
  lemma {:induction false} AcceptAll(deposits: seq<Action>, unit: real, maxRetries: nat)
    requires Acceptable(deposits, unit) && unit > 0.0
    ensures ActAll(EmptyEscrow(0.0), deposits, unit, maxRetries).Some?
    ensures AllFreshBurns(EmptyEscrow(0.0), deposits, unit, maxRetries)
    ensures var s := ActAll(EmptyEscrow(0.0), deposits, unit, maxRetries).value;
            && SystemInv(s, unit, maxRetries) && s.reopened == 0.0 && s.quotes == map[]
            && (forall id :: id in s.wagers ==> exists i :: 0 <= i < |deposits| && deposits[i].id == id)
            && Shortfall(s, unit) == Unfunded(deposits, unit)
  {
    hide Act, Possible, SystemInv, Shortfall, Raw, Signatures;
    if deposits == [] {
      NothingAccepted(unit, maxRetries);
    } else {
      hide Acceptable;
      var before, a := deposits[..|deposits| - 1], deposits[|deposits| - 1];
      AcceptablePrefix(deposits, unit);
      AcceptAll(before, unit, maxRetries);
      OnlyDeposits(before, unit);
      UsedAreSignatures(0.0, before, unit, maxRetries);
      var s := ActAll(EmptyEscrow(0.0), before, unit, maxRetries).value;
      AcceptOne(s, a, unit, maxRetries);
      DepositKeepsInv(s, a, unit, maxRetries);
      forall id | id in Act(s, a, unit, maxRetries).wagers ensures exists i :: 0 <= i < |deposits| && deposits[i].id == id {
        if id == a.id {
          assert deposits[|deposits| - 1].id == id;
        } else {
          var i :| 0 <= i < |before| && before[i].id == id;
          assert deposits[i].id == id;
        }
      }
    }
  }

  lemma NothingAccepted(unit: real, maxRetries: nat)
    requires unit > 0.0
    ensures SystemInv(EmptyEscrow(0.0), unit, maxRetries) && Shortfall(EmptyEscrow(0.0), unit) == 0.0
  {
    assert OwedMap(map[], unit) == map[] && Rents(map[]) == map[];
  }

  lemma AcceptOne(s: System, a: Action, unit: real, maxRetries: nat)
    requires a.Deposit? && a.amount > 0.0 && Raw(a.amount, unit) > 0.0 && a.id !in s.wagers
    ensures Possible(s, a, unit) && FreshBurn(s, a, unit)
    ensures var s' := Act(s, a, unit, maxRetries);
            s'.reopened == s.reopened && s'.quotes == s.quotes && s'.wagers.Keys == s.wagers.Keys + {a.id}
    ensures Raw(a.amount, unit) - Brought(s, a, unit) == if a.signature in s.used then Raw(a.amount, unit) else 0.0
  {
    hide Raw;
  }

  lemma {:induction false} UnfundedIsPositive(deposits: seq<Action>, unit: real)
    requires Acceptable(deposits, unit)
    ensures Unfunded(deposits, unit) >= 0.0
    ensures !DistinctTransactions(deposits) ==> Unfunded(deposits, unit) > 0.0
  {
    if deposits != [] {
      hide Acceptable, Raw, Signatures, DistinctTransactions;
      var before, a := deposits[..|deposits| - 1], deposits[|deposits| - 1];
      AcceptablePrefix(deposits, unit);
      UnfundedIsPositive(before, unit);
      if !DistinctTransactions(deposits) && a.signature !in Signatures(before) {
        StillDistinct(before, a);
        assert before + [a] == deposits;
      }
    }
  }

  lemma StillDistinct(deposits: seq<Action>, a: Action)
    requires a.Deposit? && a.signature !in Signatures(deposits)
    ensures DistinctTransactions(deposits) ==> DistinctTransactions(deposits + [a])
  {
    assert forall i :: 0 <= i < |deposits| && deposits[i].Deposit? ==> deposits[i].signature in Signatures(deposits);
  }

  // ----- The condition on deposits is exact -----

  /**
   * Whatever else happens, an escrow that starts empty stays solvent in every run that accepts these deposits, and
   * whose burns are decided on fresh figures, exactly when no two of them were verified on the same transaction.
   */
  lemma SolventExactlyWhenDistinct(deposits: seq<Action>, unit: real, maxRetries: nat)
    requires unit > 0.0 && Acceptable(deposits, unit)
    ensures (forall actions :: ActAll(EmptyEscrow(0.0), actions, unit, maxRetries).Some?
                               && AllFreshBurns(EmptyEscrow(0.0), actions, unit, maxRetries)
                               && DepositsOf(actions) == deposits ==>
               Solvent(ActAll(EmptyEscrow(0.0), actions, unit, maxRetries).value, unit))
            <==> DistinctTransactions(deposits)
  {
    hide ActAll, AllFreshBurns, DepositsOf, DistinctTransactions, Acceptable, SystemInv, TotalOwed, PendingRents;
    if DistinctTransactions(deposits) {
      forall actions | ActAll(EmptyEscrow(0.0), actions, unit, maxRetries).Some?
                       && AllFreshBurns(EmptyEscrow(0.0), actions, unit, maxRetries) && DepositsOf(actions) == deposits
        ensures Solvent(ActAll(EmptyEscrow(0.0), actions, unit, maxRetries).value, unit)
      {
        DistinctIsFresh(0.0, actions, unit, maxRetries);
        EscrowStaysSolvent(0.0, actions, unit, maxRetries);
      }
    } else {
      AcceptAll(deposits, unit, maxRetries);
      OnlyDeposits(deposits, unit);
      UnfundedIsPositive(deposits, unit);
      var s := ActAll(EmptyEscrow(0.0), deposits, unit, maxRetries).value;
      NoRents(s);
      assert !Solvent(s, unit);
    }
  }

  lemma NoRents(s: System)
    requires s.quotes == map[]
    ensures PendingRents(s) == 0.0
  {
    assert Rents(s.quotes) == map[];
  }
}
