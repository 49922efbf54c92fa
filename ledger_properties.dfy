/** Properties of the group ledger builder: what one expense and one
    settlement do to the sum of the members' totals, how each member's total
    relates to the directed ledger, and what the balance rows promise. */
module LedgerProperties {
  import opened Records
  import opened Netting
  import opened GroupLedger

  /** The sum of the members' totals. */
  function SumTotals(ids: seq<UserId>, t: Totals): int
    requires forall a :: a in ids ==> a in t
  {
    if ids == [] then 0 else t[ids[0]] + SumTotals(ids[1..], t)
  }

  /** What `m`'s ledger entries amount to: what the others owe `m` minus
      what `m` owes the others. */
  function NetPosition(ids: seq<UserId>, l: Ledger, m: UserId): int
    requires forall b :: b in ids && b != m ==> (b, m) in l && (m, b) in l
  {
    if ids == [] then 0
    else (if ids[0] == m then 0 else l[(ids[0], m)] - l[(m, ids[0])]) + NetPosition(ids[1..], l, m)
  }

  /** The amounts that `m` received in settlements. */
  function Received(setts: seq<Settlement>, m: UserId): int {
    if setts == [] then 0
    else
      var last := setts[|setts| - 1];
      Received(setts[..|setts| - 1], m) + (if last.receivedByUserId == m then last.amount else 0)
  }

  /** The amounts of all settlements. */
  function Settled(setts: seq<Settlement>): int {
    if setts == [] then 0 else Settled(setts[..|setts| - 1]) + setts[|setts| - 1].amount
  }

  function SumDebts(ds: seq<Debt>): int {
    if ds == [] then 0 else ds[0].amount + SumDebts(ds[1..])
  }

  function SumCredits(cs: seq<Credit>): int {
    if cs == [] then 0 else cs[0].amount + SumCredits(cs[1..])
  }

  lemma DistinctTail<T>(s: seq<T>)
    requires Distinct(s) && s != []
    ensures Distinct(s[1..]) && s[0] !in s[1..]
  {
    forall i, j | 0 <= i < j < |s[1..]| ensures s[1..][i] != s[1..][j] {
      assert s[1..][i] == s[i + 1] && s[1..][j] == s[j + 1];
    }
  }

  lemma ShapedRow(ids: seq<UserId>, l: Ledger, m: UserId)
    requires Shaped(ids, l) && m in ids
    ensures forall b :: b in ids && b != m ==> (b, m) in l && (m, b) in l
  {
  }

  // ---------------------------------------------------------------------
  // Sums of totals
  // ---------------------------------------------------------------------

  /** Changing one total by `d` changes the sum by `d` when it is a
      member's total. */
  lemma {:induction false} SumTotalsBump(ids: seq<UserId>, t: Totals, k: UserId, d: int)
    requires Distinct(ids) && (forall a :: a in ids ==> a in t) && k in t
    ensures SumTotals(ids, t[k := t[k] + d]) == SumTotals(ids, t) + (if k in ids then d else 0)
  {
    if ids != [] {
      DistinctTail(ids);
      SumTotalsBump(ids[1..], t, k, d);
    }
  }

  lemma {:induction false} SumZeroTotals(ids: seq<UserId>, t: Totals)
    requires forall a :: a in ids ==> a in t && t[a] == 0
    ensures SumTotals(ids, t) == 0
  {
    if ids != [] {
      SumZeroTotals(ids[1..], t);
    }
  }

  /** A split moves its amount from the debtor's total to the payer's, or
      changes nothing. */
  lemma SplitZeroSum(ids: seq<UserId>, b: Book, payer: UserId, s: Split)
    requires Distinct(ids) && Fits(ids, b) && SplitFits(ids, payer, s)
    ensures SumTotals(ids, AfterSplit(ids, b, payer, s).totals) == SumTotals(ids, b.totals)
  {
    if Counted(s, payer) {
      assert AfterSplit(ids, b, payer, s).totals == MovedTotals(b.totals, payer, s.userId, s.amount);
      MovedTotalsSum(ids, b.totals, payer, s.userId, s.amount);
    }
  }

  /** One total after a counted split. */
  lemma MovedTotalsAt(t: Totals, payer: UserId, debtor: UserId, d: int, a: UserId)
    requires payer in t && debtor in t && payer != debtor && a in t
    ensures MovedTotals(t, payer, debtor, d)[a] == t[a] + (if a == payer then d else 0) - (if a == debtor then d else 0)
  {
  }

  /** Moving `d` from one member's total to another's keeps the sum. */
  lemma MovedTotalsSum(ids: seq<UserId>, t: Totals, payer: UserId, debtor: UserId, d: int)
    requires Distinct(ids) && (forall a :: a in ids ==> a in t)
    requires payer in ids && debtor in ids && payer != debtor
    ensures SumTotals(ids, MovedTotals(t, payer, debtor, d)) == SumTotals(ids, t)
  {
    var t1 := t[payer := t[payer] + d];
    SumTotalsBump(ids, t, payer, d);
    SumTotalsBump(ids, t1, debtor, -d);
    assert t1[debtor := t1[debtor] + -d] == t1[debtor := t[debtor] - d];
  }

  lemma {:induction false} SplitsZeroSum(ids: seq<UserId>, b: Book, payer: UserId, splits: seq<Split>)
    requires Distinct(ids) && Fits(ids, b) && forall s :: s in splits ==> SplitFits(ids, payer, s)
    ensures SumTotals(ids, AfterSplits(ids, b, payer, splits).totals) == SumTotals(ids, b.totals)
  {
    if splits != [] {
      var init, last := splits[..|splits| - 1], splits[|splits| - 1];
      assert forall s :: s in init ==> s in splits;
      assert last in splits;
      SplitsZeroSum(ids, b, payer, init);
      SplitZeroSum(ids, AfterSplits(ids, b, payer, init), payer, last);
    }
  }

  /** Zero-sum: applying one expense leaves the sum of the members' totals
      unchanged, since every counted split adds its amount to the payer and
      takes it from the debtor (lines 84-96). */
  lemma ExpenseZeroSum(ids: seq<UserId>, b: Book, e: Expense)
    requires Distinct(ids) && Fits(ids, b) && ExpenseFits(ids, e)
    ensures SumTotals(ids, AfterExpense(ids, b, e).totals) == SumTotals(ids, b.totals)
  {
    SplitsZeroSum(ids, b, e.paidByUserId, e.splits);
  }

  lemma {:induction false} ExpensesZeroSum(ids: seq<UserId>, b: Book, exps: seq<Expense>)
    requires Distinct(ids) && Fits(ids, b) && forall e :: e in exps ==> ExpenseFits(ids, e)
    ensures SumTotals(ids, AfterExpenses(ids, b, exps).totals) == SumTotals(ids, b.totals)
  {
    if exps != [] {
      var init, last := exps[..|exps| - 1], exps[|exps| - 1];
      assert forall e :: e in init ==> e in exps;
      assert last in exps;
      ExpensesZeroSum(ids, b, init);
      ExpenseZeroSum(ids, AfterExpenses(ids, b, init), last);
    }
  }

  /** As written, one settlement RAISES the sum of the totals by twice its
      amount, because both the payer's and the receiver's totals go up. */
  lemma SettlementSum(ids: seq<UserId>, b: Book, s: Settlement)
    requires Distinct(ids) && Fits(ids, b) && SettlementFits(ids, s)
    ensures SumTotals(ids, AfterSettlement(ids, b, s).totals) == SumTotals(ids, b.totals) + 2 * s.amount
  {
    assert AfterSettlement(ids, b, s).totals == SettledTotals(b.totals, s);
    SettledTotalsSum(ids, b.totals, s);
  }

  /** Raising the payer's and the receiver's totals by the amount raises
      the sum by twice the amount. */
  lemma SettledTotalsSum(ids: seq<UserId>, t: Totals, s: Settlement)
    requires Distinct(ids) && (forall a :: a in ids ==> a in t)
    requires s.paidByUserId in ids && s.receivedByUserId in ids
    ensures SumTotals(ids, SettledTotals(t, s)) == SumTotals(ids, t) + 2 * s.amount
  {
    var t1 := t[s.paidByUserId := t[s.paidByUserId] + s.amount];
    SumTotalsBump(ids, t, s.paidByUserId, s.amount);
    SumTotalsBump(ids, t1, s.receivedByUserId, s.amount);
  }

  lemma {:induction false} SettlementsSum(ids: seq<UserId>, b: Book, setts: seq<Settlement>)
    requires Distinct(ids) && Fits(ids, b) && forall s :: s in setts ==> SettlementFits(ids, s)
    ensures SumTotals(ids, AfterSettlements(ids, b, setts).totals) == SumTotals(ids, b.totals) + 2 * Settled(setts)
  {
    if setts != [] {
      var init, last := setts[..|setts| - 1], setts[|setts| - 1];
      assert forall s :: s in init ==> s in setts;
      assert last in setts;
      SettlementsSum(ids, b, init);
      SettlementSum(ids, AfterSettlements(ids, b, init), last);
    }
  }

  /** The group's totals sum to zero over the expenses alone, and to twice
      the settled amount once the settlements are applied as written. */
  lemma AccumulatedSum(ids: seq<UserId>, exps: seq<Expense>, setts: seq<Settlement>)
    requires Distinct(ids) && AllFit(ids, exps, setts)
    ensures SumTotals(ids, AfterExpenses(ids, InitialBook(ids), exps).totals) == 0
    ensures SumTotals(ids, Accumulated(ids, exps, setts).totals) == 2 * Settled(setts)
  {
    SumZeroTotals(ids, InitialBook(ids).totals);
    ExpensesZeroSum(ids, InitialBook(ids), exps);
    SettlementsSum(ids, AfterExpenses(ids, InitialBook(ids), exps), setts);
  }

  // ---------------------------------------------------------------------
  // Totals against the ledger
  // ---------------------------------------------------------------------

  /** Changing one ledger entry `(x, y)` by `d` moves `y`'s position up and
      `x`'s position down by `d`. */
  lemma {:induction false} NetPositionBump(ids: seq<UserId>, l: Ledger, x: UserId, y: UserId, d: int, m: UserId)
    requires Distinct(ids) && x != y && (x, y) in l
    requires forall b :: b in ids && b != m ==> (b, m) in l && (m, b) in l
    ensures NetPosition(ids, l[(x, y) := l[(x, y)] + d], m)
            == NetPosition(ids, l, m) + (if m == y && x in ids then d else 0) - (if m == x && y in ids then d else 0)
  {
    if ids != [] {
      DistinctTail(ids);
      NetPositionBump(ids[1..], l, x, y, d, m);
    }
  }

  lemma {:induction false} NetPositionZero(ids: seq<UserId>, l: Ledger, m: UserId)
    requires forall b :: b in ids && b != m ==> (b, m) in l && (m, b) in l && l[(b, m)] == 0 && l[(m, b)] == 0
    ensures NetPosition(ids, l, m) == 0
  {
    if ids != [] {
      NetPositionZero(ids[1..], l, m);
    }
  }

  /** How far `m`'s total is from its ledger position. */
  ghost function Gap(ids: seq<UserId>, b: Book, m: UserId): int
    requires Fits(ids, b) && m in ids
  {
    ShapedRow(ids, b.ledger, m);
    b.totals[m] - NetPosition(ids, b.ledger, m)
  }

  lemma SplitKeepsGap(ids: seq<UserId>, b: Book, payer: UserId, s: Split, m: UserId)
    requires Distinct(ids) && Fits(ids, b) && SplitFits(ids, payer, s) && m in ids
    ensures Gap(ids, AfterSplit(ids, b, payer, s), m) == Gap(ids, b, m)
  {
    if Counted(s, payer) {
      var r := AfterSplit(ids, b, payer, s);
      var debtor, amt := s.userId, s.amount;
      ShapedRow(ids, b.ledger, m);
      ShapedHasPair(ids, b.ledger, debtor, payer);
      NetPositionBump(ids, b.ledger, debtor, payer, amt, m);
      assert r.ledger == b.ledger[(debtor, payer) := b.ledger[(debtor, payer)] + amt];
      assert r.totals == MovedTotals(b.totals, payer, debtor, amt);
      MovedTotalsAt(b.totals, payer, debtor, amt, m);
    }
  }

  lemma {:induction false} SplitsKeepGap(ids: seq<UserId>, b: Book, payer: UserId, splits: seq<Split>, m: UserId)
    requires Distinct(ids) && Fits(ids, b) && (forall s :: s in splits ==> SplitFits(ids, payer, s)) && m in ids
    ensures Gap(ids, AfterSplits(ids, b, payer, splits), m) == Gap(ids, b, m)
  {
    if splits != [] {
      var init, last := splits[..|splits| - 1], splits[|splits| - 1];
      assert forall s :: s in init ==> s in splits;
      assert last in splits;
      SplitsKeepGap(ids, b, payer, init, m);
      SplitKeepsGap(ids, AfterSplits(ids, b, payer, init), payer, last, m);
    }
  }

  lemma {:induction false} ExpensesKeepGap(ids: seq<UserId>, b: Book, exps: seq<Expense>, m: UserId)
    requires Distinct(ids) && Fits(ids, b) && (forall e :: e in exps ==> ExpenseFits(ids, e)) && m in ids
    ensures Gap(ids, AfterExpenses(ids, b, exps), m) == Gap(ids, b, m)
  {
    if exps != [] {
      var init, last := exps[..|exps| - 1], exps[|exps| - 1];
      assert forall e :: e in init ==> e in exps;
      assert last in exps;
      ExpensesKeepGap(ids, b, init, m);
      SplitsKeepGap(ids, AfterExpenses(ids, b, init), last.paidByUserId, last.splits, m);
    }
  }

  lemma SettlementGap(ids: seq<UserId>, b: Book, s: Settlement, m: UserId)
    requires Distinct(ids) && Fits(ids, b) && SettlementFits(ids, s) && m in ids
    ensures Gap(ids, AfterSettlement(ids, b, s), m)
            == Gap(ids, b, m) + (if s.receivedByUserId == m then 2 * s.amount else 0)
  {
    ShapedRow(ids, b.ledger, m);
    assert AfterSettlement(ids, b, s).totals == SettledTotals(b.totals, s);
    if s.paidByUserId != s.receivedByUserId {
      ShapedHasPair(ids, b.ledger, s.paidByUserId, s.receivedByUserId);
      NetPositionBump(ids, b.ledger, s.paidByUserId, s.receivedByUserId, -s.amount, m);
      assert AfterSettlement(ids, b, s).ledger
             == b.ledger[(s.paidByUserId, s.receivedByUserId) := b.ledger[(s.paidByUserId, s.receivedByUserId)] + -s.amount];
    }
  }

  lemma {:induction false} SettlementsGap(ids: seq<UserId>, b: Book, setts: seq<Settlement>, m: UserId)
    requires Distinct(ids) && Fits(ids, b) && (forall s :: s in setts ==> SettlementFits(ids, s)) && m in ids
    ensures Gap(ids, AfterSettlements(ids, b, setts), m) == Gap(ids, b, m) + 2 * Received(setts, m)
  {
    if setts != [] {
      var init, last := setts[..|setts| - 1], setts[|setts| - 1];
      assert forall s :: s in init ==> s in setts;
      assert last in setts;
      SettlementsGap(ids, b, init, m);
      SettlementGap(ids, AfterSettlements(ids, b, init), last, m);
    }
  }

  /** Each member's accumulated total equals what the ledger says the others
      owe them minus what they owe the others, PLUS twice what they received
      in settlements: the receiver's total goes up where the ledger says their
      claim went down (lines 114-118). */
  lemma AccumulatedTotalsIdentity(ids: seq<UserId>, exps: seq<Expense>, setts: seq<Settlement>, m: UserId)
    requires Distinct(ids) && AllFit(ids, exps, setts) && m in ids
    ensures var acc := Accumulated(ids, exps, setts);
            acc.totals[m] == NetPosition(ids, acc.ledger, m) + 2 * Received(setts, m)
  {
    var b0 := InitialBook(ids);
    ShapedRow(ids, b0.ledger, m);
    NetPositionZero(ids, b0.ledger, m);
    ExpensesKeepGap(ids, b0, exps, m);
    SettlementsGap(ids, AfterExpenses(ids, b0, exps), setts, m);
  }

  /** Netting keeps every member's position, since it keeps every pairwise
      difference. */
  lemma {:induction false} NettingKeepsPosition(ids: seq<UserId>, l: Ledger, m: UserId)
    requires Symmetric(l) && forall b :: b in ids && b != m ==> (b, m) in l && (m, b) in l
    ensures NetPosition(ids, Netted(l), m) == NetPosition(ids, l, m)
  {
    if ids != [] {
      NettingKeepsPosition(ids[1..], l, m);
      if ids[0] != m {
        assert Netted(l)[(ids[0], m)] - Netted(l)[(m, ids[0])] == l[(ids[0], m)] - l[(m, ids[0])];
      }
    }
  }

  /** On a ledger without negative entries, a member's position is the sum
      of their owedBy amounts minus the sum of their owes amounts. */
  lemma {:induction false} PositionIsCreditsMinusDebts(ids: seq<UserId>, l: Ledger, m: UserId)
    requires forall b :: b in ids && b != m ==> (b, m) in l && (m, b) in l && l[(b, m)] >= 0 && l[(m, b)] >= 0
    ensures SumCredits(OwedBy(ids, l, m)) - SumDebts(Owes(ids, l, m)) == NetPosition(ids, l, m)
  {
    if ids != [] {
      var b := ids[0];
      PositionIsCreditsMinusDebts(ids[1..], l, m);
      var c := if b != m && l[(b, m)] > 0 then [Credit(b, l[(b, m)])] else [];
      var d := if b != m && l[(m, b)] > 0 then [Debt(b, l[(m, b)])] else [];
      assert OwedBy(ids, l, m) == c + OwedBy(ids[1..], l, m);
      assert Owes(ids, l, m) == d + Owes(ids[1..], l, m);
      SumCreditsAppend(c, OwedBy(ids[1..], l, m));
      SumDebtsAppend(d, Owes(ids[1..], l, m));
    }
  }

  lemma {:induction false} SumCreditsAppend(a: seq<Credit>, b: seq<Credit>)
    ensures SumCredits(a + b) == SumCredits(a) + SumCredits(b)
  {
    if a != [] {
      assert (a + b)[0] == a[0] && (a + b)[1..] == a[1..] + b;
      SumCreditsAppend(a[1..], b);
    } else {
      assert a + b == b;
    }
  }

  lemma {:induction false} SumDebtsAppend(a: seq<Debt>, b: seq<Debt>)
    ensures SumDebts(a + b) == SumDebts(a) + SumDebts(b)
  {
    if a != [] {
      assert (a + b)[0] == a[0] && (a + b)[1..] == a[1..] + b;
      SumDebtsAppend(a[1..], b);
    } else {
      assert a + b == b;
    }
  }

  /** Each member's accumulated total, read off the netted ledger. */
  lemma MemberTotalIdentity(ids: seq<UserId>, exps: seq<Expense>, setts: seq<Settlement>, m: UserId)
    requires Distinct(ids) && AllFit(ids, exps, setts) && m in ids
    ensures var acc := Accumulated(ids, exps, setts);
            var l := Netted(acc.ledger);
            acc.totals[m] == SumCredits(OwedBy(ids, l, m)) - SumDebts(Owes(ids, l, m)) + 2 * Received(setts, m)
  {
    var acc := Accumulated(ids, exps, setts);
    ShapedRow(ids, acc.ledger, m);
    AccumulatedTotalsIdentity(ids, exps, setts, m);
    NettingKeepsPosition(ids, acc.ledger, m);
    PositionIsCreditsMinusDebts(ids, Netted(acc.ledger), m);
  }

  /** The balance rows of getGroupExpenses: nobody lists themselves, every
      listed amount is positive, and each member's totalBalance is the sum
      of their owedBy amounts minus the sum of their owes amounts plus twice
      what they received in settlements. With no settlement received it is
      exactly what the others owe them minus what they owe. (That `owes` and
      `owedBy` mirror each other is `GroupLedger.OwesMirrorsOwedBy`.) */
  lemma GroupBalanceRow(members: seq<Membership>, exps: seq<Expense>, setts: seq<Settlement>, i: nat)
    requires Distinct(MemberIds(members)) && AllFit(MemberIds(members), exps, setts) && i < |members|
    ensures var ids := MemberIds(members);
            var acc := Accumulated(ids, exps, setts);
            var row := Balances(members, acc.totals, Netted(acc.ledger))[i];
            && row.id == members[i].userId
            && (forall d :: d in row.owes ==> d.to != row.id && d.amount > 0)
            && (forall c :: c in row.owedBy ==> c.from != row.id && c.amount > 0)
            && row.totalBalance == SumCredits(row.owedBy) - SumDebts(row.owes) + 2 * Received(setts, row.id)
  {
    var ids := MemberIds(members);
    var acc := Accumulated(ids, exps, setts);
    assert forall j :: 0 <= j < |members| ==> members[j].userId in acc.totals;
    assert members[i].userId in ids;
    MemberTotalIdentity(ids, exps, setts, members[i].userId);
  }

  function ExampleIds(): seq<UserId> {
    ["user1", "user2", "user3"]
  }

  /** user1 pays 60, split evenly among the three members (line 71). */
  function ExampleExpense(): Expense {
    Expense(None, "user1", 0, [Split("user1", 20, false), Split("user2", 20, false), Split("user3", 20, false)])
  }

  /** user2 pays user1 10 (line 102). */
  function ExampleSettlement(): Settlement {
    Settlement(None, "user2", "user1", 10)
  }

  lemma ExampleFits()
    ensures AllFit(ExampleIds(), [ExampleExpense()], [ExampleSettlement()])
  {
    var ids := ExampleIds();
    assert "user1" in ids && "user2" in ids && "user3" in ids;
  }

  /** The first split is user1's own and is skipped. */
  lemma ExampleSplit1()
    ensures ExpenseFits(ExampleIds(), ExampleExpense())
    ensures AfterSplits(ExampleIds(), InitialBook(ExampleIds()), "user1", ExampleExpense().splits[..1]) == InitialBook(ExampleIds())
  {
    ExampleFits();
    var sp := ExampleExpense().splits;
    assert sp[..1][..0] == [] && sp[..1][0] == sp[0];
  }

  lemma ExampleSplit2()
    ensures ExpenseFits(ExampleIds(), ExampleExpense())
    ensures var b := AfterSplits(ExampleIds(), InitialBook(ExampleIds()), "user1", ExampleExpense().splits[..2]);
            && b.totals["user1"] == 20 && b.totals["user2"] == -20 && b.totals["user3"] == 0
            && b.ledger[("user2", "user1")] == 20 && b.ledger[("user3", "user1")] == 0
  {
    ExampleSplit1();
    var ids := ExampleIds();
    var sp := ExampleExpense().splits;
    var b0 := InitialBook(ids);
    assert b0.totals["user1"] == 0 && b0.totals["user2"] == 0 && b0.totals["user3"] == 0;
    assert ("user2", "user1") in b0.ledger && ("user3", "user1") in b0.ledger;
    assert sp[..2][..1] == sp[..1] && sp[..2][1] == sp[1];
    assert AfterSplits(ids, b0, "user1", sp[..2]) == AfterSplit(ids, b0, "user1", sp[1]);
    assert AfterSplit(ids, b0, "user1", sp[1]).totals == MovedTotals(b0.totals, "user1", "user2", 20);
  }

  lemma ExampleAfterExpense()
    ensures ExpenseFits(ExampleIds(), ExampleExpense())
    ensures var b := AfterExpenses(ExampleIds(), InitialBook(ExampleIds()), [ExampleExpense()]);
            && b.totals["user1"] == 40 && b.totals["user2"] == -20 && b.totals["user3"] == -20
            && b.ledger[("user2", "user1")] == 20 && b.ledger[("user3", "user1")] == 20
  {
    ExampleSplit2();
    var ids := ExampleIds();
    var sp := ExampleExpense().splits;
    var b0 := InitialBook(ids);
    var b2 := AfterSplits(ids, b0, "user1", sp[..2]);
    assert sp[..3][..2] == sp[..2] && sp[..3] == sp;
    assert AfterSplits(ids, b0, "user1", sp) == AfterSplit(ids, b2, "user1", sp[2]);
    assert AfterSplit(ids, b2, "user1", sp[2]).totals == MovedTotals(b2.totals, "user1", "user3", 20);
    assert [ExampleExpense()][..0] == [];
  }

  /** On the worked example of lines 70-110, the model of the code as
      written gives these totals and this ledger. The expense gives totals 40, -20, -20 as the comment says, but the
      settlement then raises user1 to 50 where the comment on line 104
      expects 30; the ledger matches the comment (user2 owes user1 10,
      user3 owes user1 20). */
  lemma WorkedExampleAsCoded()
    ensures AllFit(ExampleIds(), [ExampleExpense()], [ExampleSettlement()])
    ensures var acc := Accumulated(ExampleIds(), [ExampleExpense()], [ExampleSettlement()]);
            && acc.totals["user1"] == 50 && acc.totals["user2"] == -10 && acc.totals["user3"] == -20
            && acc.ledger[("user2", "user1")] == 10
            && acc.ledger[("user3", "user1")] == 20
  {
    ExampleFits();
    ExampleAfterExpense();
    assert [ExampleSettlement()][..0] == [];
  }
}
