/** The instruction gate in front of the treasury's signature on a redeem. */
module RedeemMatching {

  /** A normalised instruction: its program, and its accounts and data as one string. */
  datatype Instruction = Instruction(program: string, body: string)

  const COMPUTE_BUDGET := "ComputeBudget111111111111111111111111111111"
  const LIGHTHOUSE := "L2TExMFKdjpN9kozasaurPirfHy9P8sbXoAN1qA3S95"

  /** Programs whose instructions cannot move funds. */
  predicate Safe(ix: Instruction) {
    ix.program == COMPUTE_BUDGET || ix.program == LIGHTHOUSE
  }

  // ----- What may be co-signed -----

  /** What is left of `signed` when the instructions with a false flag are deleted. */
  function Kept(signed: seq<Instruction>, keep: seq<bool>): seq<Instruction>
    requires |keep| == |signed|
  {
    if signed == [] then [] else (if keep[0] then [signed[0]] else []) + Kept(signed[1..], keep[1..])
  }

  ghost predicate OnlySafeDropped(signed: seq<Instruction>, keep: seq<bool>) {
    |keep| == |signed| && forall i :: 0 <= i < |signed| ==> keep[i] || Safe(signed[i])
  }

  /** Deleting some instructions of safe programs leaves exactly the built list, in order. */
  ghost predicate Extends(signed: seq<Instruction>, built: seq<Instruction>) {
    exists keep :: OnlySafeDropped(signed, keep) && Kept(signed, keep) == built
  }

  // ----- The greedy decision -----

  predicate Greedy(signed: seq<Instruction>, built: seq<Instruction>) {
    if signed == [] then built == []
    else if built != [] && signed[0] == built[0] then Greedy(signed[1..], built[1..])
    else Safe(signed[0]) && Greedy(signed[1..], built)
  }

  lemma {:induction false} GreedySound(signed: seq<Instruction>, built: seq<Instruction>) returns (keep: seq<bool>)
    requires Greedy(signed, built)
    ensures OnlySafeDropped(signed, keep) && Kept(signed, keep) == built
  {
    if signed == [] {
      keep := [];
    } else if built != [] && signed[0] == built[0] {
      var rest := GreedySound(signed[1..], built[1..]);
      keep := [true] + rest;
      assert keep[1..] == rest;
    } else {
      var rest := GreedySound(signed[1..], built);
      keep := [false] + rest;
      assert keep[1..] == rest;
    }
  }

  lemma ExtendsByFirst(signed: seq<Instruction>, built: seq<Instruction>)
    requires signed != []
    ensures Extends(signed, built) <==>
            || (built != [] && signed[0] == built[0] && Extends(signed[1..], built[1..]))
            || (Safe(signed[0]) && Extends(signed[1..], built))
  {
    if keep :| OnlySafeDropped(signed, keep) && Kept(signed, keep) == built {
      assert OnlySafeDropped(signed[1..], keep[1..]);
      assert Kept(signed[1..], keep[1..]) == if keep[0] then built[1..] else built;
    }
    if built != [] && signed[0] == built[0] && Extends(signed[1..], built[1..]) {
      var rest :| OnlySafeDropped(signed[1..], rest) && Kept(signed[1..], rest) == built[1..];
      KeepFirst(signed, rest, true);
    }
    if Safe(signed[0]) && Extends(signed[1..], built) {
      var rest :| OnlySafeDropped(signed[1..], rest) && Kept(signed[1..], rest) == built;
      KeepFirst(signed, rest, false);
    }
  }

  lemma KeepFirst(signed: seq<Instruction>, rest: seq<bool>, first: bool)
    requires signed != [] && OnlySafeDropped(signed[1..], rest) && (first || Safe(signed[0]))
    ensures OnlySafeDropped(signed, [first] + rest)
    ensures Kept(signed, [first] + rest) == (if first then [signed[0]] else []) + Kept(signed[1..], rest)
    ensures Extends(signed, (if first then [signed[0]] else []) + Kept(signed[1..], rest))
  {
    assert ([first] + rest)[1..] == rest;
    forall i | 0 <= i < |signed| ensures ([first] + rest)[i] || Safe(signed[i]) {
      assert i > 0 ==> signed[i] == signed[1..][i - 1];
    }
  }

  /** The exchange step: a safe instruction at the front of the built list may also be dropped. */
  lemma {:induction false} DropSafeFront(signed: seq<Instruction>, built: seq<Instruction>)
    requires Extends(signed, built) && built != [] && Safe(built[0])
    ensures Extends(signed, built[1..])
    decreases |signed|
  {
    hide Extends;
    if signed == [] {
      NothingExtends(built);
    } else {
      ExtendsByFirst(signed, built);
      ExtendsByFirst(signed, built[1..]);
      if Safe(signed[0]) && Extends(signed[1..], built) {
        DropSafeFront(signed[1..], built);
      }
    }
  }

  lemma NothingExtends(built: seq<Instruction>)
    ensures Extends([], built) <==> built == []
  {
    if built == [] {
      assert OnlySafeDropped([], []) && Kept([], []) == [];
    }
  }

  lemma {:induction false} GreedyComplete(signed: seq<Instruction>, built: seq<Instruction>)
    requires Extends(signed, built)
    ensures Greedy(signed, built)
    decreases |signed|
  {
    hide Extends;
    if signed == [] {
      NothingExtends(built);
    } else {
      ExtendsByFirst(signed, built);
      if built != [] && signed[0] == built[0] {
        if Safe(signed[0]) && Extends(signed[1..], built) {
          DropSafeFront(signed[1..], built);
        }
        GreedyComplete(signed[1..], built[1..]);
      } else {
        GreedyComplete(signed[1..], built);
      }
    }
  }

  /** Matching greedily loses nothing: it accepts exactly the permitted submissions. */
  lemma GreedyIsExact(signed: seq<Instruction>, built: seq<Instruction>)
    ensures Greedy(signed, built) <==> Extends(signed, built)
  {
    if Greedy(signed, built) {
      var keep := GreedySound(signed, built);
    }
    if Extends(signed, built) {
      GreedyComplete(signed, built);
    }
  }

  /** The matching loop; false stands for the rejection. */
  method MatchInstructions(built: seq<Instruction>, signed: seq<Instruction>) returns (accepted: bool)
    ensures accepted <==> Extends(signed, built)
  {
    GreedyIsExact(signed, built);
    hide Extends;
    var next := 0;
    for i := 0 to |signed|
      invariant next <= |built|
      invariant Greedy(signed, built) == Greedy(signed[i..], built[next..])
    {
      var ix := signed[i];
      assert signed[i..][1..] == signed[i + 1..];
      if next < |built| && ix == built[next] {
        assert built[next..][1..] == built[next + 1..];
        next := next + 1;
        continue;
      }
      if Safe(ix) {
        continue;
      }
      return false;
    }
    return next == |built|;
  }

  // ----- What acceptance guarantees -----

  /** The instructions that could move funds. */
  function Unsafe(s: seq<Instruction>): seq<Instruction> {
    if s == [] then [] else (if Safe(s[0]) then [] else [s[0]]) + Unsafe(s[1..])
  }

  /** An accepted submission has exactly the built instructions of other programs, in order. */
  lemma {:induction false} SameUnsafe(signed: seq<Instruction>, built: seq<Instruction>)
    requires Extends(signed, built)
    ensures Unsafe(signed) == Unsafe(built)
    decreases |signed|
  {
    GreedyComplete(signed, built);
    hide Extends;
    if signed != [] {
      if built != [] && signed[0] == built[0] {
        GreedyIsExact(signed[1..], built[1..]);
        SameUnsafe(signed[1..], built[1..]);
      } else {
        GreedyIsExact(signed[1..], built);
        SameUnsafe(signed[1..], built);
      }
    }
  }

  /** All that can differ are instructions of the compute-budget and the lighthouse program. */
  lemma {:induction false} OnlyHarmlessDiffer(signed: seq<Instruction>, built: seq<Instruction>, ix: Instruction)
    requires Extends(signed, built) && multiset(signed)[ix] != multiset(built)[ix]
    ensures ix.program in {"ComputeBudget111111111111111111111111111111", "L2TExMFKdjpN9kozasaurPirfHy9P8sbXoAN1qA3S95"}
    decreases |signed|
  {
    GreedyComplete(signed, built);
    hide Extends;
    if signed != [] {
      assert signed == [signed[0]] + signed[1..];
      if built != [] && signed[0] == built[0] {
        assert built == [built[0]] + built[1..];
        GreedyIsExact(signed[1..], built[1..]);
        OnlyHarmlessDiffer(signed[1..], built[1..], ix);
      } else {
        GreedyIsExact(signed[1..], built);
        if signed[0] != ix {
          OnlyHarmlessDiffer(signed[1..], built, ix);
        }
      }
    }
  }

  /** Every built instruction survives, so no leg of the redeem can be left out. */
  lemma {:induction false} NothingLeftOut(signed: seq<Instruction>, built: seq<Instruction>)
    requires Extends(signed, built)
    ensures multiset(built) <= multiset(signed)
    decreases |signed|
  {
    GreedyComplete(signed, built);
    hide Extends;
    if signed != [] {
      assert signed == [signed[0]] + signed[1..];
      if built != [] && signed[0] == built[0] {
        assert built == [built[0]] + built[1..];
        GreedyIsExact(signed[1..], built[1..]);
        NothingLeftOut(signed[1..], built[1..]);
      } else {
        GreedyIsExact(signed[1..], built);
        NothingLeftOut(signed[1..], built);
      }
    }
  }
}
