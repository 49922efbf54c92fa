/** The group ledger builder of getGroupExpenses (convex/groups.js): a
    `totals` map (member -> signed balance) and a directed ledger
    (`ledger[a][b]`, how much `a` owes `b`), filled from the group's expense
    splits and settlements, netted pair by pair, and formatted into one
    balance row per member. The requesting user, the group, its expenses and
    its settlements are parameters; the database reads are not modelled. */
module GroupLedger {
  import opened Records
  import opened Netting

  type Totals = map<UserId, int>

  /** The two tables the builder updates in place. */
  datatype Book = Book(totals: Totals, ledger: Ledger)

  /** `totals` has one entry per member and `ledger` one per ordered pair of
      distinct members. */
  ghost predicate Fits(ids: seq<UserId>, b: Book) {
    && (forall a :: a in b.totals <==> a in ids)
    && Shaped(ids, b.ledger)
  }

  /** The source reads `ledger[debtor]` and `ledger[payer]` only for counted
      splits, and would fail on a non-member there; so only those must
      reference members. */
  ghost predicate SplitFits(ids: seq<UserId>, payer: UserId, s: Split) {
    Counted(s, payer) ==> payer in ids && s.userId in ids
  }

  ghost predicate ExpenseFits(ids: seq<UserId>, e: Expense) {
    forall s :: s in e.splits ==> SplitFits(ids, e.paidByUserId, s)
  }

  ghost predicate SettlementFits(ids: seq<UserId>, s: Settlement) {
    s.paidByUserId in ids && s.receivedByUserId in ids
  }

  ghost predicate AllFit(ids: seq<UserId>, exps: seq<Expense>, setts: seq<Settlement>) {
    && (forall e :: e in exps ==> ExpenseFits(ids, e))
    && (forall s :: s in setts ==> SettlementFits(ids, s))
  }

  // ---------------------------------------------------------------------
  // Specification of the tables, step by step
  // ---------------------------------------------------------------------

  /** `Object.fromEntries(ids.map((id) => [id, 0]))` (line 49). */
  function ZeroTotals(ids: seq<UserId>): (t: Totals)
    ensures forall a :: a in t <==> a in ids
    ensures forall a :: a in t ==> t[a] == 0
  {
    map a | a in ids :: 0
  }

  /** The ledger the initialisation loops build: zero for every ordered pair
      of distinct members. */
  function ZeroLedger(ids: seq<UserId>): (l: Ledger)
    ensures Shaped(ids, l)
    ensures forall k :: k in l ==> l[k] == 0
  {
    map a, b | a in ids && b in ids && a != b :: (a, b) := 0
  }

  function InitialBook(ids: seq<UserId>): (b: Book)
    ensures Fits(ids, b)
  {
    Book(ZeroTotals(ids), ZeroLedger(ids))
  }

  /** One split of an expense paid by `payer` (lines 84-96): a counted split
      credits the payer, debits the debtor and adds to `ledger[debtor][payer]`;
      a skipped split changes nothing. */
  function AfterSplit(ids: seq<UserId>, b: Book, payer: UserId, s: Split): (r: Book)
    requires Fits(ids, b) && SplitFits(ids, payer, s)
    ensures Fits(ids, r)
    ensures !Counted(s, payer) ==> r == b
    ensures Counted(s, payer) ==>
              && r.totals == b.totals[payer := b.totals[payer] + s.amount][s.userId := b.totals[s.userId] - s.amount]
              && r.ledger == b.ledger[(s.userId, payer) := b.ledger[(s.userId, payer)] + s.amount]
  {
    if !Counted(s, payer) then b
    else
      var debtor, amt := s.userId, s.amount;
      Book(MovedTotals(b.totals, payer, debtor, amt),
           b.ledger[(debtor, payer) := b.ledger[(debtor, payer)] + amt])
  }

  /** The totals after a counted split: `amt` is added to the payer's total
      and taken from the debtor's. */
  function MovedTotals(t: Totals, payer: UserId, debtor: UserId, amt: int): Totals
    requires payer in t && debtor in t
  {
    t[payer := t[payer] + amt][debtor := t[debtor] - amt]
  }

  function AfterSplits(ids: seq<UserId>, b: Book, payer: UserId, splits: seq<Split>): (r: Book)
    requires Fits(ids, b) && forall s :: s in splits ==> SplitFits(ids, payer, s)
    ensures Fits(ids, r)
    decreases |splits|
  {
    if splits == [] then b
    else
      var last := splits[|splits| - 1];
      assert last in splits;
      AfterSplit(ids, AfterSplits(ids, b, payer, splits[..|splits| - 1]), payer, last)
  }

  function AfterExpense(ids: seq<UserId>, b: Book, e: Expense): (r: Book)
    requires Fits(ids, b) && ExpenseFits(ids, e)
    ensures Fits(ids, r)
  {
    AfterSplits(ids, b, e.paidByUserId, e.splits)
  }

  function AfterExpenses(ids: seq<UserId>, b: Book, exps: seq<Expense>): (r: Book)
    requires Fits(ids, b) && forall e :: e in exps ==> ExpenseFits(ids, e)
    ensures Fits(ids, r)
    decreases |exps|
  {
    if exps == [] then b
    else
      var last := exps[|exps| - 1];
      assert last in exps;
      AfterExpense(ids, AfterExpenses(ids, b, exps[..|exps| - 1]), last)
  }

  /** One settlement AS WRITTEN (lines 112-119): the amount is ADDED to the
      payer's total and ALSO to the receiver's total, although the comment on
      line 113 and the worked example on line 104 expect the receiver's total
      to go down; `ledger[payer][receiver]` is lowered by the amount. For a
      settlement from a member to themselves the source writes a NaN into
      `ledger[p][p]`. The balance rows do read that entry (lines 163-164 through
      `Object.entries(ledger[p])`, line 167 as `ledger[other][m.id]`), but
      `NaN > 0` is false, so it never reaches a row, and netting skips
      `a === b`. The model leaves the ledger alone then. */
  function AfterSettlement(ids: seq<UserId>, b: Book, s: Settlement): (r: Book)
    requires Fits(ids, b) && SettlementFits(ids, s)
    ensures Fits(ids, r)
  {
    var p, q, amt := s.paidByUserId, s.receivedByUserId, s.amount;
    Book(SettledTotals(b.totals, s),
         if p != q then b.ledger[(p, q) := b.ledger[(p, q)] - amt] else b.ledger)
  }

  /** The totals after one settlement: the amount is added to the payer's
      total, then to the receiver's. */
  function SettledTotals(t: Totals, s: Settlement): (r: Totals)
    requires s.paidByUserId in t && s.receivedByUserId in t
    ensures r.Keys == t.Keys
    ensures forall a :: a in t ==>
              r[a] == t[a] + (if a == s.paidByUserId then s.amount else 0) + (if a == s.receivedByUserId then s.amount else 0)
  {
    var t1 := t[s.paidByUserId := t[s.paidByUserId] + s.amount];
    t1[s.receivedByUserId := t1[s.receivedByUserId] + s.amount]
  }

  /** What one settlement does: `ledger[payer][receiver]` drops by the
      amount and every other ledger entry is unchanged; the payer's and the
      receiver's totals both rise by the amount (twice the amount for a
      settlement with oneself) and every other total is unchanged. */
  lemma SettlementEffect(ids: seq<UserId>, b: Book, s: Settlement)
    requires Fits(ids, b) && SettlementFits(ids, s)
    ensures var r := AfterSettlement(ids, b, s);
      && r.totals.Keys == b.totals.Keys && r.ledger.Keys == b.ledger.Keys
      && (s.paidByUserId != s.receivedByUserId ==>
            r.ledger[(s.paidByUserId, s.receivedByUserId)] == b.ledger[(s.paidByUserId, s.receivedByUserId)] - s.amount)
      && (forall k :: k in b.ledger && k != (s.paidByUserId, s.receivedByUserId) ==> r.ledger[k] == b.ledger[k])
      && (s.paidByUserId != s.receivedByUserId ==>
            && r.totals[s.paidByUserId] == b.totals[s.paidByUserId] + s.amount
            && r.totals[s.receivedByUserId] == b.totals[s.receivedByUserId] + s.amount)
      && (s.paidByUserId == s.receivedByUserId ==> r.totals[s.paidByUserId] == b.totals[s.paidByUserId] + 2 * s.amount)
      && (forall a :: a in b.totals && a != s.paidByUserId && a != s.receivedByUserId ==> r.totals[a] == b.totals[a])
  {
  }

  function AfterSettlements(ids: seq<UserId>, b: Book, setts: seq<Settlement>): (r: Book)
    requires Fits(ids, b) && forall s :: s in setts ==> SettlementFits(ids, s)
    ensures Fits(ids, r)
    decreases |setts|
  {
    if setts == [] then b
    else
      var last := setts[|setts| - 1];
      assert last in setts;
      AfterSettlement(ids, AfterSettlements(ids, b, setts[..|setts| - 1]), last)
  }

  /** The tables just before netting: every expense, then every settlement. */
  function Accumulated(ids: seq<UserId>, exps: seq<Expense>, setts: seq<Settlement>): (r: Book)
    requires AllFit(ids, exps, setts)
    ensures Fits(ids, r)
    ensures Symmetric(r.ledger)
  {
    var r := AfterSettlements(ids, AfterExpenses(ids, InitialBook(ids), exps), setts);
    ShapedIsSymmetric(ids, r.ledger);
    r
  }

  // ---------------------------------------------------------------------
  // The loops of getGroupExpenses
  // ---------------------------------------------------------------------

  /** The nested initialisation loops of lines 61-66. */
  method InitLedger(ids: seq<UserId>) returns (l: Ledger)
    ensures l == ZeroLedger(ids)
  {
    l := map[];
    var i := 0;
    while i < |ids|
      invariant 0 <= i <= |ids|
      invariant forall x, y :: (x, y) in l <==> x in ids[..i] && y in ids && x != y
      invariant forall k :: k in l ==> l[k] == 0
    {
      var a := ids[i];
      var j := 0;
      while j < |ids|
        invariant 0 <= j <= |ids|
        invariant forall x, y :: (x, y) in l <==> (x in ids[..i] && y in ids && x != y) || (x == a && y in ids[..j] && x != y)
        invariant forall k :: k in l ==> l[k] == 0
      {
        var b := ids[j];
        if a != b {
          l := l[(a, b) := 0];
        }
        assert ids[..j + 1] == ids[..j] + [b];
        j := j + 1;
      }
      assert ids[..j] == ids;
      assert ids[..i + 1] == ids[..i] + [a];
      i := i + 1;
    }
    assert ids[..i] == ids;
    forall k ensures k in l <==> k in ZeroLedger(ids) {
      assert k == (k.0, k.1);
    }
  }

  /** The body of the inner expense loop (lines 85-95) for one split. */
  method ApplySplit(ids: seq<UserId>, b: Book, payer: UserId, split: Split) returns (r: Book)
    requires Fits(ids, b) && SplitFits(ids, payer, split)
    ensures r == AfterSplit(ids, b, payer, split)
  {
    r := b;
    // skip the payer's own split and splits already paid
    if split.userId == payer || split.paid {
      return;
    }
    var debtor := split.userId;
    var amt := split.amount;
    var totals := b.totals;
    totals := totals[payer := totals[payer] + amt];
    totals := totals[debtor := totals[debtor] - amt];
    var ledger := b.ledger[(debtor, payer) := b.ledger[(debtor, payer)] + amt];
    r := Book(totals, ledger);
  }

  /** The inner loop of lines 84-96, over the splits of one expense. */
  method ApplyExpense(ids: seq<UserId>, b0: Book, exp: Expense) returns (b: Book)
    requires Fits(ids, b0) && ExpenseFits(ids, exp)
    ensures b == AfterExpense(ids, b0, exp)
  {
    var payer := exp.paidByUserId;
    b := b0;
    var j := 0;
    while j < |exp.splits|
      invariant 0 <= j <= |exp.splits|
      invariant b == AfterSplits(ids, b0, payer, exp.splits[..j])
    {
      var split := exp.splits[j];
      assert split in exp.splits;
      assert exp.splits[..j + 1][..j] == exp.splits[..j];
      b := ApplySplit(ids, b, payer, split);
      j := j + 1;
    }
    assert exp.splits[..j] == exp.splits;
  }

  /** The expense loop of lines 81-97. */
  method ApplyExpenses(ids: seq<UserId>, b0: Book, exps: seq<Expense>) returns (b: Book)
    requires Fits(ids, b0) && forall e :: e in exps ==> ExpenseFits(ids, e)
    ensures b == AfterExpenses(ids, b0, exps)
  {
    b := b0;
    var i := 0;
    while i < |exps|
      invariant 0 <= i <= |exps|
      invariant b == AfterExpenses(ids, b0, exps[..i])
    {
      var exp := exps[i];
      assert exp in exps;
      assert exps[..i + 1][..i] == exps[..i];
      b := ApplyExpense(ids, b, exp);
      i := i + 1;
    }
    assert exps[..i] == exps;
  }

  /** The body of the settlement loop (lines 113-118), as written. */
  method ApplySettlement(ids: seq<UserId>, b: Book, s: Settlement) returns (r: Book)
    requires Fits(ids, b) && SettlementFits(ids, s)
    ensures r == AfterSettlement(ids, b, s)
  {
    var totals := b.totals;
    totals := totals[s.paidByUserId := totals[s.paidByUserId] + s.amount];
    totals := totals[s.receivedByUserId := totals[s.receivedByUserId] + s.amount];
    assert totals == SettledTotals(b.totals, s);
    var ledger := b.ledger;
    if s.paidByUserId != s.receivedByUserId {
      ShapedHasPair(ids, ledger, s.paidByUserId, s.receivedByUserId);
      ledger := ledger[(s.paidByUserId, s.receivedByUserId) := ledger[(s.paidByUserId, s.receivedByUserId)] - s.amount];
    }
    r := Book(totals, ledger);
  }

  /** The settlement loop of lines 112-119. */
  method ApplySettlements(ids: seq<UserId>, b0: Book, setts: seq<Settlement>) returns (b: Book)
    requires Fits(ids, b0) && forall s :: s in setts ==> SettlementFits(ids, s)
    ensures b == AfterSettlements(ids, b0, setts)
  {
    b := b0;
    var i := 0;
    while i < |setts|
      invariant 0 <= i <= |setts|
      invariant b == AfterSettlements(ids, b0, setts[..i])
    {
      var s := setts[i];
      assert s in setts;
      assert setts[..i + 1][..i] == setts[..i];
      b := ApplySettlement(ids, b, s);
      i := i + 1;
    }
    assert setts[..i] == setts;
  }

  /** Lines 49-154: initialise, apply expenses, apply settlements, net. The
      result is the accumulated totals and the netted ledger. */
  method BuildLedger(ids: seq<UserId>, exps: seq<Expense>, setts: seq<Settlement>)
    returns (totals: Totals, ledger: Ledger)
    requires Distinct(ids) && AllFit(ids, exps, setts)
    ensures Symmetric(Accumulated(ids, exps, setts).ledger)
    ensures totals == Accumulated(ids, exps, setts).totals
    ensures ledger == Netted(Accumulated(ids, exps, setts).ledger)
  {
    var l := InitLedger(ids);
    var b := Book(ZeroTotals(ids), l);
    b := ApplyExpenses(ids, b, exps);
    b := ApplySettlements(ids, b, setts);
    totals := b.totals;
    ledger := Simplify(ids, b.ledger);
  }

  // ---------------------------------------------------------------------
  // The balance rows (lines 160-169)
  // ---------------------------------------------------------------------

  datatype Debt = Debt(to: UserId, amount: int)
  datatype Credit = Credit(from: UserId, amount: int)
  datatype MemberBalance = MemberBalance(id: UserId, role: Role, totalBalance: int, owes: seq<Debt>, owedBy: seq<Credit>)

  /** `Object.entries(ledger[m]).filter(([, v]) => v > 0)`: the row of `m`
      lists the other members in member order, so `m` owes exactly the
      members listed, each with the positive ledger amount. */
  function Owes(ids: seq<UserId>, l: Ledger, m: UserId): (r: seq<Debt>)
    requires forall b :: b in ids && b != m ==> (m, b) in l
    ensures forall d :: d in r <==> d.to in ids && d.to != m && d.amount == l[(m, d.to)] && d.amount > 0
    ensures Distinct(ids) ==> forall i, j :: 0 <= i < j < |r| ==> r[i].to != r[j].to
  {
    if ids == [] then []
    else
      var b := ids[0];
      var rest := Owes(ids[1..], l, m);
      assert Distinct(ids) ==> Distinct(ids[1..]) && b !in ids[1..];
      (if b != m && l[(m, b)] > 0 then [Debt(b, l[(m, b)])] else []) + rest
  }

  /** `ids.filter((other) => ledger[other][m] > 0)`; `ledger[m][m]` is
      undefined (NaN after a settlement from `m` to `m`), and neither
      `undefined > 0` nor `NaN > 0` holds, so `m` never lists itself. */
  function OwedBy(ids: seq<UserId>, l: Ledger, m: UserId): (r: seq<Credit>)
    requires forall b :: b in ids && b != m ==> (b, m) in l
    ensures forall c :: c in r <==> c.from in ids && c.from != m && c.amount == l[(c.from, m)] && c.amount > 0
    ensures Distinct(ids) ==> forall i, j :: 0 <= i < j < |r| ==> r[i].from != r[j].from
  {
    if ids == [] then []
    else
      var b := ids[0];
      var rest := OwedBy(ids[1..], l, m);
      assert Distinct(ids) ==> Distinct(ids[1..]) && b !in ids[1..];
      (if b != m && l[(b, m)] > 0 then [Credit(b, l[(b, m)])] else []) + rest
  }

  /** One balance row per member, in member order. */
  function Balances(members: seq<Membership>, totals: Totals, l: Ledger): (r: seq<MemberBalance>)
    requires forall i :: 0 <= i < |members| ==> members[i].userId in totals
    requires Shaped(MemberIds(members), l)
    ensures |r| == |members|
    ensures forall i :: 0 <= i < |r| ==>
              && r[i].id == members[i].userId
              && r[i].role == members[i].role
              && r[i].totalBalance == totals[members[i].userId]
              && r[i].owes == Owes(MemberIds(members), l, members[i].userId)
              && r[i].owedBy == OwedBy(MemberIds(members), l, members[i].userId)
  {
    var ids := MemberIds(members);
    seq(|members|, i requires 0 <= i < |members| =>
      var m := members[i].userId;
      assert m in ids;
      MemberBalance(m, members[i].role, totals[m], Owes(ids, l, m), OwedBy(ids, l, m)))
  }

  /** What a member owes another, seen from both sides: `m` owes `x` the
      amount `v` exactly when `x`'s owedBy lists `{from: m, amount: v}`. */
  lemma OwesMirrorsOwedBy(ids: seq<UserId>, l: Ledger, m: UserId, x: UserId, v: int)
    requires Shaped(ids, l) && m in ids && x in ids
    ensures Debt(x, v) in Owes(ids, l, m) <==> Credit(m, v) in OwedBy(ids, l, x)
  {
  }

  // ---------------------------------------------------------------------
  // The group handler
  // ---------------------------------------------------------------------

  datatype GroupInfo = GroupInfo(id: GroupId, name: string, description: string, inviteToken: Option<string>)

  datatype GroupExpenses = GroupExpenses(
    group: GroupInfo,
    members: seq<Membership>,
    expenses: seq<Expense>,
    settlements: seq<Settlement>,
    balances: seq<MemberBalance>)

  /** getGroupExpenses: a missing group fails with "Group not found"
      (line 11), a requester outside `members` with "You are not a member of
      this group" (lines 14-15); otherwise the balance rows come from the
      accumulated totals and the netted ledger. */
  method GetGroupExpenses(group: Option<Group>, user: UserId, exps: seq<Expense>, setts: seq<Settlement>)
    returns (r: Result<GroupExpenses>)
    requires group.Some? && IsMember(group.value.members, user) ==>
               var ids := MemberIds(group.value.members);
               Distinct(ids) && AllFit(ids, exps, setts)
    ensures group.None? ==> r == Failure(GroupNotFound)
    ensures group.Some? && !IsMember(group.value.members, user) ==> r == Failure(NotAMember)
    ensures group.Some? && IsMember(group.value.members, user) ==>
              var ids := MemberIds(group.value.members);
              var acc := Accumulated(ids, exps, setts);
              && Symmetric(acc.ledger)
              && r.Success?
              && r.value.group == GroupInfo(group.value.id, group.value.name, group.value.description, group.value.inviteToken)
              && r.value.members == group.value.members
              && r.value.expenses == exps
              && r.value.settlements == setts
              && r.value.balances == Balances(group.value.members, acc.totals, Netted(acc.ledger))
  {
    if group.None? {
      return Failure(GroupNotFound);
    }
    var g := group.value;
    if !IsMember(g.members, user) {
      return Failure(NotAMember);
    }
    var ids := MemberIds(g.members);
    var totals, ledger := BuildLedger(ids, exps, setts);
    assert forall i :: 0 <= i < |g.members| ==> g.members[i].userId in ids;
    var balances := Balances(g.members, totals, ledger);
    r := Success(GroupExpenses(GroupInfo(g.id, g.name, g.description, g.inviteToken), g.members, exps, setts, balances));
  }
}
