/** The two per-user folds of convex/dashboard.js besides getUserBalances:
    the signed balance getUserGroups attaches to each of the user's groups
    (lines 190-268) and the year's spending of getTotalSpent (lines
    100-131). */
module DashboardTotals {
  import opened Records
  import opened GroupMembership
  import opened UserBalances

  /* ---------------- getUserGroups ---------------- */

  /** `withIndex("by_group", ...)`: the expenses of group `gid`. */
  function GroupExpensesOf(exps: seq<Expense>, gid: GroupId): (r: seq<Expense>)
    ensures |r| <= |exps|
    ensures forall e :: e in r <==> e in exps && e.groupId == Some(gid)
  {
    if exps == [] then []
    else
      var rest := GroupExpensesOf(exps[1..], gid);
      assert forall e :: e in exps <==> e == exps[0] || e in exps[1..];
      if exps[0].groupId == Some(gid) then [exps[0]] + rest else rest
  }

  /** `GroupExpensesOf` keeps each kept record as often as it occurs. */
  lemma {:induction false} GroupExpensesOfCounts(exps: seq<Expense>, gid: GroupId)
    ensures forall e :: multiset(GroupExpensesOf(exps, gid))[e] ==
              if e.groupId == Some(gid) then multiset(exps)[e] else 0
  {
    if exps != [] {
      GroupExpensesOfCounts(exps[1..], gid);
      assert exps == [exps[0]] + exps[1..];
    }
  }

  /** The settlement query of lines 236-247: settlements of group `gid` that
      the user paid or received. */
  function GroupSettlementsOf(setts: seq<Settlement>, gid: GroupId, user: UserId): (r: seq<Settlement>)
    ensures |r| <= |setts|
    ensures forall s :: s in r <==>
              s in setts && s.groupId == Some(gid) && (s.paidByUserId == user || s.receivedByUserId == user)
  {
    if setts == [] then []
    else
      var rest := GroupSettlementsOf(setts[1..], gid, user);
      assert forall s :: s in setts <==> s == setts[0] || s in setts[1..];
      var s := setts[0];
      if s.groupId == Some(gid) && (s.paidByUserId == user || s.receivedByUserId == user) then [s] + rest else rest
  }

  /** `GroupSettlementsOf` keeps each kept record as often as it occurs. */
  lemma {:induction false} GroupSettlementsOfCounts(setts: seq<Settlement>, gid: GroupId, user: UserId)
    ensures forall s :: multiset(GroupSettlementsOf(setts, gid, user))[s] ==
              if s.groupId == Some(gid) && (s.paidByUserId == user || s.receivedByUserId == user)
              then multiset(setts)[s] else 0
  {
    if setts != [] {
      GroupSettlementsOfCounts(setts[1..], gid, user);
      assert setts == [setts[0]] + setts[1..];
    }
  }

  /** What one expense adds to the group balance (lines 213-232): as payer,
      the others' unpaid splits; otherwise minus the user's own first split
      when it is unpaid. */
  function ExpenseShare(e: Expense, user: UserId): (r: int)
    ensures r == ExpenseYouAreOwed(e, user) - ExpenseYouOwe(e, user)
  {
    if e.paidByUserId == user then CountedTotal(e.splits, user)
    else
      var mine := FirstSplitOf(user, e.splits);
      if mine.Some? && !mine.value.paid then -mine.value.amount else 0
  }

  /** What one settlement adds (lines 249-257): plus when the user paid,
      minus otherwise. */
  function SettlementShare(s: Settlement, user: UserId): (r: int)
    ensures r == SettlementYouAreOwed(s, user) - SettlementYouOwe(s, user)
  {
    if s.paidByUserId == user then s.amount else -s.amount
  }

  function ExpenseShares(ex: seq<Expense>, user: UserId): int {
    if ex == [] then 0 else ExpenseShares(ex[..|ex| - 1], user) + ExpenseShare(ex[|ex| - 1], user)
  }

  function SettlementShares(st: seq<Settlement>, user: UserId): int {
    if st == [] then 0 else SettlementShares(st[..|st| - 1], user) + SettlementShare(st[|st| - 1], user)
  }

  /** The balance loops of one group (lines 210-257). */
  method GroupBalance(user: UserId, ex: seq<Expense>, st: seq<Settlement>) returns (balance: int)
    ensures balance == ExpenseShares(ex, user) + SettlementShares(st, user)
    ensures ex == [] && st == [] ==> balance == 0
  {
    balance := 0;
    var i := 0;
    while i < |ex|
      invariant 0 <= i <= |ex|
      invariant balance == ExpenseShares(ex[..i], user)
    {
      var expense := ex[i];
      assert ex[..i + 1][..i] == ex[..i] && ex[..i + 1][i] == expense;
      if expense.paidByUserId == user {
        ghost var before := balance;
        var k := 0;
        while k < |expense.splits|
          invariant 0 <= k <= |expense.splits|
          invariant balance == before + CountedTotal(expense.splits[..k], user)
        {
          var split := expense.splits[k];
          assert expense.splits[..k + 1][..k] == expense.splits[..k];
          if split.userId != user && !split.paid {
            balance := balance + split.amount;
          }
          k := k + 1;
        }
        assert expense.splits[..k] == expense.splits;
      } else {
        var userSplit := FirstSplitOf(user, expense.splits);
        if userSplit.Some? && !userSplit.value.paid {
          balance := balance - userSplit.value.amount;
        }
      }
      i := i + 1;
    }
    assert ex[..i] == ex;
    var j := 0;
    while j < |st|
      invariant 0 <= j <= |st|
      invariant balance == ExpenseShares(ex, user) + SettlementShares(st[..j], user)
    {
      var settlement := st[j];
      assert st[..j + 1][..j] == st[..j] && st[..j + 1][j] == settlement;
      if settlement.paidByUserId == user {
        balance := balance + settlement.amount;
      } else {
        balance := balance - settlement.amount;
      }
      j := j + 1;
    }
    assert st[..j] == st;
  }

  /** A group of the user with its balance attached. */
  datatype GroupWithBalance = GroupWithBalance(group: Group, balance: int)

  /** The balance of group `g` for `user`: the shares of the group's
      expenses and of the group's settlements the user took part in. */
  function BalanceIn(g: Group, user: UserId, exps: seq<Expense>, setts: seq<Settlement>): int {
    ExpenseShares(GroupExpensesOf(exps, g.id), user) + SettlementShares(GroupSettlementsOf(setts, g.id, user), user)
  }

  /** getUserGroups: each group that has the user as a member, in table
      order, with the balance over that group's expenses and the group's
      settlements the user took part in. */
  method GetUserGroups(groups: seq<Group>, user: UserId, exps: seq<Expense>, setts: seq<Settlement>)
    returns (r: seq<GroupWithBalance>)
    ensures var mine := UserGroups(groups, user);
            && |r| == |mine|
            && forall i :: 0 <= i < |r| ==> r[i] == GroupWithBalance(mine[i], BalanceIn(mine[i], user, exps, setts))
    ensures forall x :: x in r ==> x.group in groups && IsMember(x.group.members, user)
  {
    var mine := UserGroups(groups, user);
    r := [];
    var i := 0;
    while i < |mine|
      invariant 0 <= i <= |mine|
      invariant |r| == i
      invariant forall k :: 0 <= k < i ==> r[k] == GroupWithBalance(mine[k], BalanceIn(mine[k], user, exps, setts))
    {
      var balance := BalanceOfGroup(mine[i], user, exps, setts);
      var g := mine[i];
      r := r + [GroupWithBalance(g, balance)];
      i := i + 1;
    }
    ListedAreMine(groups, user, mine, r);
  }

  /** The two queries of one group (lines 205-208, 236-247) and its
      balance. */
  method BalanceOfGroup(g: Group, user: UserId, exps: seq<Expense>, setts: seq<Settlement>) returns (balance: int)
    ensures balance == BalanceIn(g, user, exps, setts)
  {
    balance := GroupBalance(user, GroupExpensesOf(exps, g.id), GroupSettlementsOf(setts, g.id, user));
  }

  lemma ListedAreMine(groups: seq<Group>, user: UserId, mine: seq<Group>, r: seq<GroupWithBalance>)
    requires mine == UserGroups(groups, user)
    requires |r| == |mine| && forall i :: 0 <= i < |r| ==> r[i].group == mine[i]
    ensures forall x :: x in r ==> x.group in groups && IsMember(x.group.members, user)
  {
    forall x | x in r ensures x.group in groups && IsMember(x.group.members, user) {
      var k :| 0 <= k < |r| && r[k] == x;
      assert mine[k] in mine;
    }
  }

  /** The group balance uses the same arithmetic as the dashboard's
      `totalBalance = youAreOwed - youOwe`, only over a group's records
      instead of the one-to-one ones: it is that difference of the sums. */
  lemma {:induction false} GroupBalanceIsTotalBalance(ex: seq<Expense>, st: seq<Settlement>, user: UserId)
    ensures ExpenseShares(ex, user) + SettlementShares(st, user) ==
            (ExpYouAreOwed(ex, user) + SetYouAreOwed(st, user)) - (ExpYouOwe(ex, user) + SetYouOwe(st, user))
  {
    ExpenseSharesAreNet(ex, user);
    SettlementSharesAreNet(st, user);
  }

  lemma {:induction false} ExpenseSharesAreNet(ex: seq<Expense>, user: UserId)
    ensures ExpenseShares(ex, user) == ExpYouAreOwed(ex, user) - ExpYouOwe(ex, user)
  {
    if ex != [] {
      ExpenseSharesAreNet(ex[..|ex| - 1], user);
    }
  }

  lemma {:induction false} SettlementSharesAreNet(st: seq<Settlement>, user: UserId)
    ensures SettlementShares(st, user) == SetYouAreOwed(st, user) - SetYouOwe(st, user)
  {
    if st != [] {
      SettlementSharesAreNet(st[..|st| - 1], user);
    }
  }

  /* ---------------- getTotalSpent ---------------- */

  /** `withIndex("by_date", (q) => q.gte("date", startOfYear))`. */
  function Since(exps: seq<Expense>, startOfYear: int): (r: seq<Expense>)
    ensures |r| <= |exps|
    ensures forall e :: e in r <==> e in exps && e.date >= startOfYear
  {
    if exps == [] then []
    else
      var rest := Since(exps[1..], startOfYear);
      assert forall e :: e in exps <==> e == exps[0] || e in exps[1..];
      if exps[0].date >= startOfYear then [exps[0]] + rest else rest
  }

  /** `Since` keeps each kept record as often as it occurs. */
  lemma {:induction false} SinceCounts(exps: seq<Expense>, startOfYear: int)
    ensures forall e :: multiset(Since(exps, startOfYear))[e] == if e.date >= startOfYear then multiset(exps)[e] else 0
  {
    if exps != [] {
      SinceCounts(exps[1..], startOfYear);
      assert exps == [exps[0]] + exps[1..];
    }
  }

  /** The user paid the expense or has a split in it (lines 114-118). */
  predicate Involved(e: Expense, user: UserId) {
    e.paidByUserId == user || exists k :: 0 <= k < |e.splits| && e.splits[k].userId == user
  }

  function InvolvedIn(exps: seq<Expense>, user: UserId): (r: seq<Expense>)
    ensures |r| <= |exps|
    ensures forall e :: e in r <==> e in exps && Involved(e, user)
  {
    if exps == [] then []
    else
      var rest := InvolvedIn(exps[1..], user);
      assert forall e :: e in exps <==> e == exps[0] || e in exps[1..];
      if Involved(exps[0], user) then [exps[0]] + rest else rest
  }

  /** `InvolvedIn` keeps each kept record as often as it occurs. */
  lemma {:induction false} InvolvedInCounts(exps: seq<Expense>, user: UserId)
    ensures forall e :: multiset(InvolvedIn(exps, user))[e] == if Involved(e, user) then multiset(exps)[e] else 0
  {
    if exps != [] {
      InvolvedInCounts(exps[1..], user);
      assert exps == [exps[0]] + exps[1..];
    }
  }

  /** The user's share of one expense: the amount of their first split, paid
      or not, and nothing when they have none. */
  function Spent(e: Expense, user: UserId): (r: int)
    ensures (forall k :: 0 <= k < |e.splits| ==> e.splits[k].userId != user) ==> r == 0
    ensures forall k ::
              (0 <= k < |e.splits| && e.splits[k].userId == user
               && forall j :: 0 <= j < k ==> e.splits[j].userId != user) ==> r == e.splits[k].amount
  {
    var mine := FirstSplitOf(user, e.splits);
    if mine.Some? then mine.value.amount else 0
  }

  function SpentSum(ex: seq<Expense>, user: UserId): int {
    if ex == [] then 0 else SpentSum(ex[..|ex| - 1], user) + Spent(ex[|ex| - 1], user)
  }

  /** getTotalSpent (lines 108-130); `startOfYear` is the timestamp of the
      first instant of the current year. */
  method TotalSpent(user: UserId, exps: seq<Expense>, startOfYear: int) returns (totalSpent: int)
    ensures totalSpent == SpentSum(InvolvedIn(Since(exps, startOfYear), user), user)
    ensures totalSpent == SpentSum(Since(exps, startOfYear), user)
  {
    var userExpenses := InvolvedIn(Since(exps, startOfYear), user);
    totalSpent := 0;
    var i := 0;
    while i < |userExpenses|
      invariant 0 <= i <= |userExpenses|
      invariant totalSpent == SpentSum(userExpenses[..i], user)
    {
      var expense := userExpenses[i];
      assert userExpenses[..i + 1][..i] == userExpenses[..i];
      var userSplit := FirstSplitOf(user, expense.splits);
      if userSplit.Some? {
        totalSpent := totalSpent + userSplit.value.amount;
      }
      i := i + 1;
    }
    assert userExpenses[..i] == userExpenses;
    InvolvementFilterKeepsTotal(Since(exps, startOfYear), user);
  }

  /** The involvement filter does not change the total: an expense in which
      the user has no split adds nothing, whether or not the user paid it. */
  lemma {:induction false} InvolvementFilterKeepsTotal(ex: seq<Expense>, user: UserId)
    ensures SpentSum(InvolvedIn(ex, user), user) == SpentSum(ex, user)
  {
    if ex != [] {
      InvolvementFilterKeepsTotal(ex[1..], user);
      SpentSumCons(ex[0], ex[1..], user);
      assert ex == [ex[0]] + ex[1..];
      if Involved(ex[0], user) {
        SpentSumCons(ex[0], InvolvedIn(ex[1..], user), user);
      } else {
        assert Spent(ex[0], user) == 0;
      }
    }
  }

  /** `SpentSum` read from the front. */
  lemma {:induction false} SpentSumCons(e: Expense, ex: seq<Expense>, user: UserId)
    ensures SpentSum([e] + ex, user) == Spent(e, user) + SpentSum(ex, user)
  {
    if ex == [] {
      assert [e] + ex == [e];
      assert [e][..0] == [];
    } else {
      var init := ex[..|ex| - 1];
      SpentSumCons(e, init, user);
      assert ([e] + ex)[..|[e] + ex| - 1] == [e] + init;
    }
  }

  /** An expense the user paid but holds no split in adds nothing to the
      total spent. */
  lemma PaidWithoutSplitSpendsNothing(ex: seq<Expense>, e: Expense, user: UserId)
    requires e.paidByUserId == user && forall k :: 0 <= k < |e.splits| ==> e.splits[k].userId != user
    ensures SpentSum(ex + [e], user) == SpentSum(ex, user)
  {
    assert (ex + [e])[..|ex|] == ex;
  }
}
