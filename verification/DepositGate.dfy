/** The deposit gate: a wager deposit as built, and what a verified one proves. */
module DepositGates {
  import opened Prelude
  import EscrowTreasury

  /** Where escrow and fees live, the fee's terms, and 10^decimals. */
  datatype Config = Config(escrow: Wallet, feeDestination: Wallet, feeBps: real, feeFlat: real, unit: real)

  /** A confirmed transaction: its logs, and the raw token balance of every owner with an account. */
  datatype Transaction = Transaction(failed: bool, logs: seq<string>, pre: map<Wallet, real>, post: map<Wallet, real>)

  const WAGER_MEMO_PREFIX := "astroid_raid_wager"

  predicate Commingled(c: Config) {
    c.feeDestination == c.escrow
  }

  function Ceil(x: real): real {
    -Floor(-x)
  }

  function Percentage(wager: real, bps: real): real {
    Ceil(wager * bps / 10000.0)
  }

  /** `computeEscrowFee`. */
  function Fee(wager: real, c: Config): real {
    if wager <= 0.0 then 0.0 else Percentage(wager, c.feeBps) + Max(0.0, c.feeFlat)
  }

  function RawWager(wager: real, c: Config): real {
    EscrowTreasury.Raw(wager, c.unit)
  }

  function RawFee(wager: real, c: Config): real {
    EscrowTreasury.Raw(Fee(wager, c), c.unit)
  }

  /** The memo binds the raid and the amount, `text` being the amount as printed. */
  function MemoTag(raid: string, text: string): string {
    WAGER_MEMO_PREFIX + ":" + raid + ":" + text
  }

  predicate TagAt(line: string, tag: string, i: nat) {
    i <= |line| && tag <= line[i..]
  }

  ghost predicate Includes(line: string, tag: string) {
    exists i: nat :: TagAt(line, tag, i)
  }

  /** How much the owner gained; without an account afterwards the gain reads as nothing. */
  function Delta(t: Transaction, owner: Wallet): real {
    if owner in t.post then t.post[owner] - Held(t.pre, owner) else 0.0
  }

  function ExpectedCredit(wager: real, c: Config): real {
    if Commingled(c) then RawWager(wager, c) + RawFee(wager, c) else RawWager(wager, c)
  }

  /** Some log line contains the tag. */
  ghost predicate Carries(logs: seq<string>, tag: string) {
    exists i :: 0 <= i < |logs| && Includes(logs[i], tag)
  }

  ghost predicate Verified(t: Transaction, wallet: Wallet, wager: real, raid: string, text: string, c: Config) {
    && !t.failed
    && Carries(t.logs, MemoTag(raid, text))
    && c.escrow in t.post
    && Delta(t, c.escrow) == ExpectedCredit(wager, c)
    && (!Commingled(c) && RawFee(wager, c) > 0.0 ==> Delta(t, c.feeDestination) == RawFee(wager, c))
    && wallet in t.pre
    && t.pre[wallet] - Held(t.post, wallet) >= RawWager(wager, c) + RawFee(wager, c)
  }

  // ----- One transaction, one wager amount -----

  predicate ValidConfig(c: Config) {
    c.feeBps >= 0.0 && c.unit > 0.0
  }

  lemma RawMonotone(a: real, b: real, unit: real)
    requires unit > 0.0 && a <= b
    ensures EscrowTreasury.Raw(a, unit) <= EscrowTreasury.Raw(b, unit)
  {
    ScaleMonotone(a, b, unit);
    FloorMonotone(a * unit, b * unit);
  }

  lemma PercentageMonotone(a: real, b: real, bps: real)
    requires 0.0 < a <= b && bps >= 0.0
    ensures 0.0 <= Percentage(a, bps) <= Percentage(b, bps)
  {
    ScaleMonotone(a, b, bps);
    ScaleMonotone(0.0, a, bps);
    CeilMonotone(a * bps / 10000.0, b * bps / 10000.0);
    CeilMonotone(0.0, a * bps / 10000.0);
  }

  lemma FeeMonotone(a: real, b: real, c: Config)
    requires ValidConfig(c) && 0.0 < a <= b
    ensures 0.0 <= Fee(a, c) <= Fee(b, c)
  {
    hide Percentage;
    PercentageMonotone(a, b, c.feeBps);
  }

  /** The fee is the percentage rounded up to a whole token, plus the flat part; no wager, no fee. */
  lemma FeeIs(wager: real, c: Config)
    ensures wager <= 0.0 ==> Fee(wager, c) == 0.0
    ensures wager > 0.0 ==>
              var rounded := Fee(wager, c) - Max(0.0, c.feeFlat);
              rounded == Floor(rounded) && wager * c.feeBps / 10000.0 <= rounded < wager * c.feeBps / 10000.0 + 1.0
  {
    hide Percentage, Floor;
    PercentageIs(wager, c.feeBps);
  }

  lemma PercentageIs(wager: real, bps: real)
    ensures var rounded := Percentage(wager, bps);
            rounded == Floor(rounded) && wager * bps / 10000.0 <= rounded < wager * bps / 10000.0 + 1.0
  {
    hide Floor;
    var exact := wager * bps / 10000.0;
    CeilIs(exact);
    assert Percentage(wager, bps) == Ceil(exact);
  }

  /** Rounding up: a whole number, and the least one from `x` on. */
  lemma CeilIs(x: real)
    ensures x <= Ceil(x) < x + 1.0 && Floor(Ceil(x)) == Ceil(x)
  {
    WholeIsItsFloor(-(-x).Floor);
  }

  lemma CeilMonotone(x: real, y: real)
    requires x <= y
    ensures Ceil(x) <= Ceil(y) && Ceil(0.0) == 0.0
  {
    FloorMonotone(-y, -x);
  }

  /**
   * The credit gate is exact: whichever wagers one transaction could be submitted for, they all cost
   * the same raw amount, with a dedicated escrow wallet and with a commingled one.
   */
  lemma OneAmountPerTransaction(t: Transaction, w1: Wallet, a1: real, r1: string, s1: string,
                                w2: Wallet, a2: real, r2: string, s2: string, c: Config)
    requires ValidConfig(c) && a1 > 0.0 && a2 > 0.0
    requires Verified(t, w1, a1, r1, s1, c) && Verified(t, w2, a2, r2, s2, c)
    ensures RawWager(a1, c) == RawWager(a2, c)
  {
    hide Fee, EscrowTreasury.Raw, Includes, MemoTag;
    if a1 <= a2 {
      SameCredit(a1, a2, c);
    } else {
      SameCredit(a2, a1, c);
    }
  }

  lemma SameCredit(a: real, b: real, c: Config)
    requires ValidConfig(c) && 0.0 < a <= b && ExpectedCredit(a, c) == ExpectedCredit(b, c)
    ensures RawWager(a, c) == RawWager(b, c)
  {
    hide Fee, EscrowTreasury.Raw;
    RawMonotone(a, b, c.unit);
    FeeMonotone(a, b, c);
    RawMonotone(Fee(a, c), Fee(b, c), c.unit);
  }

  // ----- What the memo alone binds -----

  function BuiltMemo(raid: string, text: string, feeText: string): string {
    MemoTag(raid, text) + ":" + feeText
  }

  predicate ColonFree(s: string) {
    ':' !in s
  }

  /** The raid ends in the prefix and its wager is printed like the other raid's id. */
  predicate Disguised(raid: string, text: string, built: string, builtText: string, feeText: string) {
    && raid == builtText && text <= feeText
    && |built| >= |WAGER_MEMO_PREFIX| && built[|built| - |WAGER_MEMO_PREFIX|..] == WAGER_MEMO_PREFIX
  }

  /** The first colon splits a line in one way only. */
  lemma FirstField(a: string, rest: string, b: string, more: string)
    requires ColonFree(a) && ColonFree(b)
    ensures b + ":" + more <= a + ":" + rest <==> a == b && more <= rest
  {
    var line, start := a + ":" + rest, b + ":" + more;
    if start <= line {
      assert start[|b|] == ':' == line[|b|] && (|a| < |start| ==> start[|a|] == ':');
      assert |a| == |b|;
      assert a == line[..|a|] == start[..|b|] == b;
      assert more == start[|b| + 1..] && rest == line[|a| + 1..];
    }
    if a == b && more <= rest {
      assert line == start + rest[|more|..];
    }
  }

  lemma LastField(a: string, rest: string, b: string)
    requires ColonFree(b)
    ensures b <= a + ":" + rest <==> b <= a
  {
    var line := a + ":" + rest;
    if b <= line {
      assert line[|a|] == ':' && forall k :: 0 <= k < |b| ==> b[k] == line[k];
      assert |b| <= |a| && a == line[..|a|];
    }
    if b <= a {
      assert line == b + (a[|b|..] + ":" + rest);
    }
  }

  /** A line whose first field is `b` starts inside the first field or after it. */
  lemma NextField(a: string, rest: string, b: string, more: string, i: nat)
    requires ColonFree(a) && ColonFree(b) && i <= |a + ":" + rest|
    ensures i <= |a| ==> (b + ":" + more <= (a + ":" + rest)[i..] <==> a[i..] == b && more <= rest)
    ensures i > |a| ==> (a + ":" + rest)[i..] == rest[i - |a| - 1..]
  {
    if i <= |a| {
      assert (a + ":" + rest)[i..] == a[i..] + ":" + rest;
      FirstField(a[i..], rest, b, more);
    }
  }

  lemma PrefixIn(s: string, line: string, c: char)
    requires s <= line && c in s
    ensures c in line
  {
    var k :| 0 <= k < |s| && s[k] == c;
    assert line[k] == c;
  }

  lemma NoColonNoField(s: string, b: string, more: string, i: nat)
    requires ColonFree(s) && i <= |s|
    ensures !(b + ":" + more <= s[i..])
  {
    var start, end := b + ":" + more, s[i..];
    assert start[|b|] == ':' && ColonFree(end);
    if start <= end {
      PrefixIn(start, end, ':');
    }
  }

  /** Two colon-free texts have no room for a tag. */
  lemma NoTagInTexts(raid: string, text: string, builtText: string, feeText: string, i: nat)
    requires ColonFree(builtText) && ColonFree(feeText) && i <= |builtText + ":" + feeText|
    ensures !(WAGER_MEMO_PREFIX + ":" + (raid + ":" + text) <= (builtText + ":" + feeText)[i..])
  {
    assert ColonFree(WAGER_MEMO_PREFIX);
    NextField(builtText, feeText, WAGER_MEMO_PREFIX, raid + ":" + text, i);
    if i <= |builtText| {
      NoColonNoField(feeText, raid, text, 0);
      assert feeText[0..] == feeText;
    } else {
      NoColonNoField(feeText, WAGER_MEMO_PREFIX, raid + ":" + text, i - 1 - |builtText|);
    }
  }

  lemma TagInPrefix(raid: string, text: string, built: string, builtText: string, feeText: string, i: nat)
    requires ColonFree(raid) && ColonFree(text) && ColonFree(built) && i <= |WAGER_MEMO_PREFIX|
    ensures var p := WAGER_MEMO_PREFIX;
            p + ":" + (raid + ":" + text) <= (p + ":" + (built + ":" + (builtText + ":" + feeText)))[i..]
            <==> i == 0 && raid == built && text <= builtText
  {
    var p := WAGER_MEMO_PREFIX;
    assert ColonFree(p);
    NextField(p, built + ":" + (builtText + ":" + feeText), p, raid + ":" + text, i);
    FirstField(built, builtText + ":" + feeText, raid, text);
    LastField(builtText, feeText, text);
    assert p[i..] == p <==> i == 0;
  }

  lemma TagInRaid(raid: string, text: string, built: string, builtText: string, feeText: string, i: nat)
    requires ColonFree(raid) && ColonFree(built) && ColonFree(builtText) && i <= |built|
    ensures var p := WAGER_MEMO_PREFIX;
            p + ":" + (raid + ":" + text) <= (built + ":" + (builtText + ":" + feeText))[i..]
            <==> built[i..] == p && raid == builtText && text <= feeText
  {
    assert ColonFree(WAGER_MEMO_PREFIX);
    NextField(built, builtText + ":" + feeText, WAGER_MEMO_PREFIX, raid + ":" + text, i);
    FirstField(builtText, feeText, raid, text);
  }

  /** Where a tag can lie in a built memo: at its start, or with its prefix at the end of the raid. */
  lemma TagPositions(raid: string, text: string, built: string, builtText: string, feeText: string, i: nat)
    requires ColonFree(raid) && ColonFree(text) && ColonFree(built) && ColonFree(builtText) && ColonFree(feeText)
    requires i <= |BuiltMemo(built, builtText, feeText)|
    ensures var n := |WAGER_MEMO_PREFIX|;
            MemoTag(raid, text) <= BuiltMemo(built, builtText, feeText)[i..]
            <==> (i == 0 && raid == built && text <= builtText)
                 || (n < i <= n + 1 + |built| && built[i - n - 1..] == WAGER_MEMO_PREFIX && raid == builtText && text <= feeText)
  {
    var p, tag, last := WAGER_MEMO_PREFIX, WAGER_MEMO_PREFIX + ":" + (raid + ":" + text), builtText + ":" + feeText;
    var line := p + ":" + (built + ":" + last);
    MemoFields(raid, text, built, builtText, feeText);
    hide *;
    if i <= |p| {
      TagInPrefix(raid, text, built, builtText, feeText, i);
    } else {
      assert line[i..] == (built + ":" + last)[i - |p| - 1..];
      if i <= |p| + 1 + |built| {
        TagInRaid(raid, text, built, builtText, feeText, i - |p| - 1);
      } else {
        assert (built + ":" + last)[i - |p| - 1..] == last[i - |p| - 2 - |built|..];
        NoTagInTexts(raid, text, builtText, feeText, i - |p| - 2 - |built|);
      }
    }
  }

  lemma MemoFields(raid: string, text: string, built: string, builtText: string, feeText: string)
    ensures MemoTag(raid, text) == WAGER_MEMO_PREFIX + ":" + (raid + ":" + text)
    ensures BuiltMemo(built, builtText, feeText) == WAGER_MEMO_PREFIX + ":" + (built + ":" + (builtText + ":" + feeText))
  {
  }

  lemma RaidInMemo(built: string, builtText: string, feeText: string)
    ensures |BuiltMemo(built, builtText, feeText)| > 1 + |built|
  {
  }

  /**
   * What the substring match of the memo is worth: a built memo contains a tag exactly when the raid
   * agrees and the tag's printed amount is a prefix of the memo's, or when the memo's raid is a disguise.
   */
  lemma MemoMatchesExactlyWhen(raid: string, text: string, built: string, builtText: string, feeText: string)
    requires ColonFree(raid) && ColonFree(text) && ColonFree(built) && ColonFree(builtText) && ColonFree(feeText)
    ensures Includes(BuiltMemo(built, builtText, feeText), MemoTag(raid, text))
            <==> (raid == built && text <= builtText) || Disguised(raid, text, built, builtText, feeText)
  {
    hide BuiltMemo, MemoTag;
    var line, tag := BuiltMemo(built, builtText, feeText), MemoTag(raid, text);
    RaidInMemo(built, builtText, feeText);
    if i: nat :| TagAt(line, tag, i) {
      TagPositions(raid, text, built, builtText, feeText, i);
    }
    if raid == built && text <= builtText {
      TagPositions(raid, text, built, builtText, feeText, 0);
      assert TagAt(line, tag, 0);
    }
    if Disguised(raid, text, built, builtText, feeText) {
      TagPositions(raid, text, built, builtText, feeText, 1 + |built|);
      assert TagAt(line, tag, 1 + |built|);
    }
  }

  /** Ending the tag with the colon that follows the amount would make the memo bind raid and amount. */
  lemma TerminatedTagBinds(raid: string, text: string, built: string, builtText: string, feeText: string)
    requires ColonFree(raid) && ColonFree(text) && ColonFree(built) && ColonFree(builtText) && ColonFree(feeText)
    ensures Includes(BuiltMemo(built, builtText, feeText), MemoTag(raid, text) + ":") <==> raid == built && text == builtText
  {
    var line, tag := BuiltMemo(built, builtText, feeText), MemoTag(raid, text);
    if i: nat :| TagAt(line, tag + ":", i) {
      TerminatedTagFits(raid, text, built, builtText, feeText, i);
    }
    if raid == built && text == builtText {
      assert line == tag + ":" + feeText;
      assert TagAt(line, tag + ":", 0);
    }
  }

  lemma TerminatedTagFits(raid: string, text: string, built: string, builtText: string, feeText: string, i: nat)
    requires ColonFree(raid) && ColonFree(text) && ColonFree(built) && ColonFree(builtText) && ColonFree(feeText)
    requires TagAt(BuiltMemo(built, builtText, feeText), MemoTag(raid, text) + ":", i)
    ensures raid == built && text == builtText
  {
    var p, more := WAGER_MEMO_PREFIX, raid + ":" + (text + ":");
    var line, last := BuiltMemo(built, builtText, feeText), builtText + ":" + feeText;
    assert ColonFree(p) && MemoTag(raid, text) + ":" == p + ":" + more;
    assert line == p + ":" + (built + ":" + last);
    assert MemoTag(raid, text) <= line[i..];
    TagPositions(raid, text, built, builtText, feeText, i);
    NextField(p, built + ":" + last, p, more, i);
    if i == 0 {
      FirstField(built, last, raid, text + ":");
      TerminatedText(builtText, feeText, text);
    } else {
      NextField(built, last, p, more, i - |p| - 1);
      NoTerminatedText(builtText, feeText, raid, text);
    }
  }

  lemma TerminatedText(builtText: string, feeText: string, text: string)
    requires ColonFree(builtText) && ColonFree(text)
    ensures text + ":" <= builtText + ":" + feeText <==> text == builtText
  {
    FirstField(builtText, feeText, text, "");
    assert text + ":" + "" == text + ":";
  }

  lemma NoTerminatedText(builtText: string, feeText: string, raid: string, text: string)
    requires ColonFree(builtText) && ColonFree(feeText) && ColonFree(raid)
    ensures !(raid + ":" + (text + ":") <= builtText + ":" + feeText)
  {
    FirstField(builtText, feeText, raid, text + ":");
    NoColonNoField(feeText, text, "", 0);
    assert feeText[0..] == feeText && text + ":" + "" == text + ":";
  }

  /** The memo alone would not do: the memo of a wager of 100 contains the tag of a wager of 10. */
  lemma MemoAloneIsNotEnough(raid: string)
    ensures Includes(MemoTag(raid, "100"), MemoTag(raid, "10"))
  {
    var line, tag := MemoTag(raid, "100"), MemoTag(raid, "10");
    assert line == tag + "0";
    assert TagAt(line, tag, 0);
  }

  // ----- A built deposit passes the gate -----

  /** The token account exists afterwards and holds `amount` more. */
  function Moved(balances: map<Wallet, real>, from: Wallet, to: Wallet, amount: real): map<Wallet, real> {
    Credit(Credit(balances, from, -amount), to, amount)
  }

  /** What executing the built transaction does: the wager leg, and the fee leg unless it rounds to nothing. */
  function Executed(pre: map<Wallet, real>, wallet: Wallet, wager: real, c: Config): map<Wallet, real> {
    var paid := Moved(pre, wallet, c.escrow, RawWager(wager, c));
    if RawFee(wager, c) > 0.0 then Moved(paid, wallet, c.feeDestination, RawFee(wager, c)) else paid
  }

  /** The builder's own check: the player holds the wager and the fee. */
  predicate Affordable(pre: map<Wallet, real>, wallet: Wallet, wager: real, c: Config) {
    wallet in pre && pre[wallet] >= RawWager(wager, c) + RawFee(wager, c)
  }

  /** Build, sign, submit, verify: an untouched deposit of a player's own is always accepted. */
  lemma BuiltDepositVerifies(pre: map<Wallet, real>, wallet: Wallet, wager: real, raid: string, text: string,
                             feeText: string, c: Config)
    requires ValidConfig(c) && wager > 0.0 && Affordable(pre, wallet, wager, c)
    requires wallet != c.escrow && wallet != c.feeDestination
    ensures Verified(Transaction(false, [BuiltMemo(raid, text, feeText)], pre, Executed(pre, wallet, wager, c)),
                     wallet, wager, raid, text, c)
  {
    var t := Transaction(false, [BuiltMemo(raid, text, feeText)], pre, Executed(pre, wallet, wager, c));
    MemoIncluded(raid, text, feeText);
    assert Includes(t.logs[0], MemoTag(raid, text));
    FeeMonotone(wager, wager, c);
    EscrowTreasury.RawBounds(Fee(wager, c), c.unit);
    hide Fee, EscrowTreasury.Raw, Includes, MemoTag;
  }

  lemma MemoIncluded(raid: string, text: string, feeText: string)
    ensures Includes(BuiltMemo(raid, text, feeText), MemoTag(raid, text))
  {
    var line, tag := BuiltMemo(raid, text, feeText), MemoTag(raid, text);
    assert TagAt(line, tag, 0);
  }

  // ----- How many raids one transaction verifies for -----

  /**
   * Nothing but the tag ties a transaction to a raid, and no signature is ever marked as used: what verifies for
   * one raid verifies for another exactly when it carries that raid's tag as well.
   */
  lemma VerifiesForRaidExactlyWhen(t: Transaction, wallet: Wallet, wager: real, raid: string, other: string, text: string,
                                   c: Config)
    requires Verified(t, wallet, wager, raid, text, c)
    ensures Verified(t, wallet, wager, other, text, c) <==> Carries(t.logs, MemoTag(other, text))
  {
    hide Carries, MemoTag, RawWager, RawFee, Delta, ExpectedCredit;
  }

  /** A deposit built for one raid with a second raid's memo beside it verifies for both. */
  lemma TwoMemosVerifyTwice(pre: map<Wallet, real>, wallet: Wallet, wager: real, raid: string, other: string, text: string,
                            feeText: string, c: Config)
    requires ValidConfig(c) && wager > 0.0 && Affordable(pre, wallet, wager, c)
    requires wallet != c.escrow && wallet != c.feeDestination
    ensures var t := Transaction(false, [BuiltMemo(raid, text, feeText), BuiltMemo(other, text, feeText)], pre,
                                 Executed(pre, wallet, wager, c));
            Verified(t, wallet, wager, raid, text, c) && Verified(t, wallet, wager, other, text, c)
  {
    hide MemoTag, BuiltMemo, RawWager, RawFee, ExpectedCredit, Executed, Includes;
    var logs := [BuiltMemo(raid, text, feeText), BuiltMemo(other, text, feeText)];
    BuiltDepositVerifies(pre, wallet, wager, raid, text, feeText, c);
    MemoIncluded(raid, text, feeText);
    MemoIncluded(other, text, feeText);
    assert Includes(logs[0], MemoTag(raid, text)) && Includes(logs[1], MemoTag(other, text));
    var t := Transaction(false, logs, pre, Executed(pre, wallet, wager, c));
    OtherLogs(Transaction(false, [BuiltMemo(raid, text, feeText)], pre, t.post), logs, wallet, wager, raid, text, c);
    VerifiesForRaidExactlyWhen(t, wallet, wager, raid, other, text, c);
  }

  lemma OtherLogs(t: Transaction, logs: seq<string>, wallet: Wallet, wager: real, raid: string, text: string, c: Config)
    requires Verified(t, wallet, wager, raid, text, c) && Carries(logs, MemoTag(raid, text))
    ensures Verified(t.(logs := logs), wallet, wager, raid, text, c)
  {
    hide Carries, MemoTag, RawWager, RawFee, ExpectedCredit;
  }

  /** The wager prefix occurs in no log line but the one that is the memo. */
  ghost predicate OneMemo(logs: seq<string>, memo: string) {
    forall i :: 0 <= i < |logs| && Includes(logs[i], WAGER_MEMO_PREFIX) ==> logs[i] == memo
  }

  /** A transaction with one built memo verifies for no raid but the memo's own, unless that raid is a disguise. */
  lemma OneMemoOneRaid(t: Transaction, wallet: Wallet, wager: real, raid: string, text: string, built: string,
                       builtText: string, feeText: string, c: Config)
    requires ColonFree(raid) && ColonFree(text) && ColonFree(built) && ColonFree(builtText) && ColonFree(feeText)
    requires OneMemo(t.logs, BuiltMemo(built, builtText, feeText)) && Verified(t, wallet, wager, raid, text, c)
    ensures (raid == built && text <= builtText) || Disguised(raid, text, built, builtText, feeText)
  {
    hide BuiltMemo, MemoTag, Includes, RawWager, RawFee, Delta, ExpectedCredit, Disguised;
    var i :| 0 <= i < |t.logs| && Includes(t.logs[i], MemoTag(raid, text));
    PrefixIncluded(t.logs[i], raid, text);
    MemoMatchesExactlyWhen(raid, text, built, builtText, feeText);
  }

  lemma PrefixIncluded(line: string, raid: string, text: string)
    requires Includes(line, MemoTag(raid, text))
    ensures Includes(line, WAGER_MEMO_PREFIX)
  {
    var i: nat :| TagAt(line, MemoTag(raid, text), i);
    assert WAGER_MEMO_PREFIX <= MemoTag(raid, text);
    assert TagAt(line, WAGER_MEMO_PREFIX, i);
  }

  /** Conversely a verified deposit of the player's own has moved the wager into escrow and out of the player's account. */
  lemma VerifiedDepositIsFunded(t: Transaction, wallet: Wallet, wager: real, raid: string, text: string, c: Config)
    requires Verified(t, wallet, wager, raid, text, c) && ValidConfig(c) && wager > 0.0
    ensures t.post[c.escrow] >= Held(t.pre, c.escrow) + RawWager(wager, c)
    ensures t.pre[wallet] >= Held(t.post, wallet) + RawWager(wager, c) + RawFee(wager, c)
    ensures RawFee(wager, c) >= 0.0
    ensures !t.failed && c.escrow in t.post
    ensures c.feeDestination != c.escrow && RawFee(wager, c) > 0.0 ==>
              c.feeDestination in t.post && t.post[c.feeDestination] == Held(t.pre, c.feeDestination) + RawFee(wager, c)
  {
    FeeMonotone(wager, wager, c);
    EscrowTreasury.RawBounds(Fee(wager, c), c.unit);
  }
}
