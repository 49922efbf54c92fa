/** getUserBalances (convex/dashboard.js:5-98): the dashboard's one-to-one
    balances. Expenses and settlements without a group that involve the
    current user are accumulated into the totals `youOwe` and `youAreOwed`
    and into a per-counterpart `{owed, owing}` dictionary; the counterparts
    with a non-zero net are then split into the people the user owes and the
    people who owe the user, each list sorted by amount, largest first.

    As written, the branch for an expense someone else paid credits the
    payer's `owed` bucket (line 41), the same bucket the payer branch uses;
    so a counterpart the user owes ends up with a positive net and is listed
    among the people who owe the user. The model keeps that behaviour and
    `DebtorBranchListsCreditorAsOwing` exhibits it. */
module UserBalances {
  import opened Records

  /** One counterpart's `{ owed, owing }` in `balanceByUser`. */
  datatype Bucket = Bucket(owed: int, owing: int)

  function Net(b: Bucket): int {
    b.owed - b.owing
  }

  /** The loop state: the two totals and `balanceByUser`. `order` lists the
      dictionary's keys in creation order, the order `Object.entries`
      yields them in. */
  datatype Tally = Tally(youOwe: int, youAreOwed: int, buckets: map<UserId, Bucket>, order: seq<UserId>)

  ghost predicate Wf(t: Tally) {
    Distinct(t.order) && forall c :: c in t.buckets <==> c in t.order
  }

  /** A counterpart's bucket, or the fresh `{ owed: 0, owing: 0 }` that
      `??=` would create. */
  function Base(t: Tally, c: UserId): Bucket {
    if c in t.buckets then t.buckets[c] else Bucket(0, 0)
  }

  /** `(balanceByUser[c] ??= { owed: 0, owing: 0 })` followed by adding
      `dOwed` to `owed` and `dOwing` to `owing`. */
  function Bump(t: Tally, c: UserId, dOwed: int, dOwing: int): (r: Tally)
    ensures r.youOwe == t.youOwe && r.youAreOwed == t.youAreOwed
    ensures r.buckets.Keys == t.buckets.Keys + {c}
    ensures Base(r, c) == Bucket(Base(t, c).owed + dOwed, Base(t, c).owing + dOwing)
    ensures forall d :: d != c ==> Base(r, d) == Base(t, d)
    ensures c in t.buckets ==> r.order == t.order
    ensures c !in t.buckets ==> r.order == t.order + [c]
    ensures Wf(t) ==> Wf(r)
  {
    var b := Base(t, c);
    var order := if c in t.buckets then t.order else t.order + [c];
    var r := Tally(t.youOwe, t.youAreOwed, t.buckets[c := Bucket(b.owed + dOwed, b.owing + dOwing)], order);
    assert Wf(t) && c !in t.buckets ==> c !in t.order;
    r
  }

  /* ---------------- which records are read (lines 12-17, 48-52) ---------------- */

  /** An expense without a group that the user paid or has a split in. */
  predicate OneToOneExpense(e: Expense, user: UserId) {
    e.groupId.None? &&
    (e.paidByUserId == user || exists k :: 0 <= k < |e.splits| && e.splits[k].userId == user)
  }

  predicate OneToOneSettlement(s: Settlement, user: UserId) {
    s.groupId.None? && (s.paidByUserId == user || s.receivedByUserId == user)
  }

  function OneToOneExpenses(exps: seq<Expense>, user: UserId): (r: seq<Expense>)
    ensures |r| <= |exps|
    ensures forall e :: e in r <==> e in exps && OneToOneExpense(e, user)
  {
    if exps == [] then []
    else
      var rest := OneToOneExpenses(exps[1..], user);
      assert forall e :: e in exps <==> e == exps[0] || e in exps[1..];
      if OneToOneExpense(exps[0], user) then [exps[0]] + rest else rest
  }

  /** `OneToOneExpenses` keeps each kept record as often as it occurs. */
  lemma {:induction false} OneToOneExpensesCounts(exps: seq<Expense>, user: UserId)
    ensures forall e :: multiset(OneToOneExpenses(exps, user))[e] ==
              if OneToOneExpense(e, user) then multiset(exps)[e] else 0
  {
    if exps != [] {
      OneToOneExpensesCounts(exps[1..], user);
      assert exps == [exps[0]] + exps[1..];
    }
  }

  function OneToOneSettlements(setts: seq<Settlement>, user: UserId): (r: seq<Settlement>)
    ensures |r| <= |setts|
    ensures forall s :: s in r <==> s in setts && OneToOneSettlement(s, user)
  {
    if setts == [] then []
    else
      var rest := OneToOneSettlements(setts[1..], user);
      assert forall s :: s in setts <==> s == setts[0] || s in setts[1..];
      if OneToOneSettlement(setts[0], user) then [setts[0]] + rest else rest
  }

  /** `OneToOneSettlements` keeps each kept record as often as it occurs. */
  lemma {:induction false} OneToOneSettlementsCounts(setts: seq<Settlement>, user: UserId)
    ensures forall s :: multiset(OneToOneSettlements(setts, user))[s] ==
              if OneToOneSettlement(s, user) then multiset(setts)[s] else 0
  {
    if setts != [] {
      OneToOneSettlementsCounts(setts[1..], user);
      assert setts == [setts[0]] + setts[1..];
    }
  }

  /* ---------------- what one record contributes ---------------- */

  /** The sum of the counted splits: what the payer branch adds to `youAreOwed`. */
  function CountedTotal(splits: seq<Split>, user: UserId): int {
    if splits == [] then 0
    else
      var s := splits[|splits| - 1];
      CountedTotal(splits[..|splits| - 1], user) + (if Counted(s, user) then s.amount else 0)
  }

  /** The sum of the counted splits of counterpart `c`. */
  function CountedOf(splits: seq<Split>, user: UserId, c: UserId): int {
    if splits == [] then 0
    else
      var s := splits[|splits| - 1];
      CountedOf(splits[..|splits| - 1], user, c) + (if Counted(s, user) && s.userId == c then s.amount else 0)
  }

  predicate HasCountedOf(splits: seq<Split>, user: UserId, c: UserId) {
    if splits == [] then false
    else
      var s := splits[|splits| - 1];
      HasCountedOf(splits[..|splits| - 1], user, c) || (Counted(s, user) && s.userId == c)
  }

  /** Someone else paid and the user's first split is unpaid (line 37). */
  predicate Owing(e: Expense, user: UserId) {
    e.paidByUserId != user &&
    var mine := FirstSplitOf(user, e.splits);
    mine.Some? && !mine.value.paid
  }

  function ExpenseYouOwe(e: Expense, user: UserId): int {
    if Owing(e, user) then FirstSplitOf(user, e.splits).value.amount else 0
  }

  function ExpenseYouAreOwed(e: Expense, user: UserId): int {
    if e.paidByUserId == user then CountedTotal(e.splits, user) else 0
  }

  /** What the expense adds to counterpart `c`'s `owed` bucket: the payer
      branch credits each counted split's user, the other branch credits the
      payer with the user's own share. */
  function ExpenseOwed(e: Expense, user: UserId, c: UserId): int {
    if e.paidByUserId == user then CountedOf(e.splits, user, c)
    else if c == e.paidByUserId then ExpenseYouOwe(e, user)
    else 0
  }

  /** Whether the expense creates or updates `c`'s bucket. */
  predicate ExpenseTouches(e: Expense, user: UserId, c: UserId) {
    if e.paidByUserId == user then HasCountedOf(e.splits, user, c)
    else c == e.paidByUserId && Owing(e, user)
  }

  /** The other side of a settlement, whose bucket it updates. */
  function Counterpart(s: Settlement, user: UserId): UserId {
    if s.paidByUserId == user then s.receivedByUserId else s.paidByUserId
  }

  function SettlementYouOwe(s: Settlement, user: UserId): int {
    if s.paidByUserId == user then -s.amount else 0
  }

  function SettlementYouAreOwed(s: Settlement, user: UserId): int {
    if s.paidByUserId == user then 0 else -s.amount
  }

  function SettlementOwed(s: Settlement, user: UserId, c: UserId): int {
    if s.paidByUserId != user && c == s.paidByUserId then -s.amount else 0
  }

  function SettlementOwing(s: Settlement, user: UserId, c: UserId): int {
    if s.paidByUserId == user && c == s.receivedByUserId then -s.amount else 0
  }

  /* ---------------- the sums over the record lists ---------------- */

  function ExpYouOwe(ex: seq<Expense>, user: UserId): int {
    if ex == [] then 0 else ExpYouOwe(ex[..|ex| - 1], user) + ExpenseYouOwe(ex[|ex| - 1], user)
  }

  function ExpYouAreOwed(ex: seq<Expense>, user: UserId): int {
    if ex == [] then 0 else ExpYouAreOwed(ex[..|ex| - 1], user) + ExpenseYouAreOwed(ex[|ex| - 1], user)
  }

  function ExpOwed(ex: seq<Expense>, user: UserId, c: UserId): int {
    if ex == [] then 0 else ExpOwed(ex[..|ex| - 1], user, c) + ExpenseOwed(ex[|ex| - 1], user, c)
  }

  predicate ExpTouched(ex: seq<Expense>, user: UserId, c: UserId) {
    if ex == [] then false else ExpTouched(ex[..|ex| - 1], user, c) || ExpenseTouches(ex[|ex| - 1], user, c)
  }

  function SetYouOwe(st: seq<Settlement>, user: UserId): int {
    if st == [] then 0 else SetYouOwe(st[..|st| - 1], user) + SettlementYouOwe(st[|st| - 1], user)
  }

  function SetYouAreOwed(st: seq<Settlement>, user: UserId): int {
    if st == [] then 0 else SetYouAreOwed(st[..|st| - 1], user) + SettlementYouAreOwed(st[|st| - 1], user)
  }

  function SetOwed(st: seq<Settlement>, user: UserId, c: UserId): int {
    if st == [] then 0 else SetOwed(st[..|st| - 1], user, c) + SettlementOwed(st[|st| - 1], user, c)
  }

  function SetOwing(st: seq<Settlement>, user: UserId, c: UserId): int {
    if st == [] then 0 else SetOwing(st[..|st| - 1], user, c) + SettlementOwing(st[|st| - 1], user, c)
  }

  predicate SetTouched(st: seq<Settlement>, user: UserId, c: UserId) {
    if st == [] then false else SetTouched(st[..|st| - 1], user, c) || Counterpart(st[|st| - 1], user) == c
  }

  /** The net `owed - owing` of counterpart `c` over the one-to-one records. */
  function NetOf(ex: seq<Expense>, st: seq<Settlement>, user: UserId, c: UserId): int {
    ExpOwed(ex, user, c) + SetOwed(st, user, c) - SetOwing(st, user, c)
  }

  /* ---------------- lemmas about the sums ---------------- */

  lemma {:induction false} CountedOfUntouched(splits: seq<Split>, user: UserId, c: UserId)
    requires !HasCountedOf(splits, user, c)
    ensures CountedOf(splits, user, c) == 0
  {
    if splits != [] {
      CountedOfUntouched(splits[..|splits| - 1], user, c);
    }
  }

  lemma {:induction false} ExpOwedUntouched(ex: seq<Expense>, user: UserId, c: UserId)
    requires !ExpTouched(ex, user, c)
    ensures ExpOwed(ex, user, c) == 0
  {
    if ex != [] {
      var e := ex[|ex| - 1];
      ExpOwedUntouched(ex[..|ex| - 1], user, c);
      if e.paidByUserId == user {
        CountedOfUntouched(e.splits, user, c);
      }
    }
  }

  lemma {:induction false} SetUntouched(st: seq<Settlement>, user: UserId, c: UserId)
    requires !SetTouched(st, user, c)
    ensures SetOwed(st, user, c) == 0 && SetOwing(st, user, c) == 0
  {
    if st != [] {
      SetUntouched(st[..|st| - 1], user, c);
    }
  }

  /** A counterpart no record mentions has net zero, so only counterparts
      with a bucket can be listed. */
  lemma UntouchedNetZero(ex: seq<Expense>, st: seq<Settlement>, user: UserId, c: UserId)
    requires !ExpTouched(ex, user, c) && !SetTouched(st, user, c)
    ensures NetOf(ex, st, user, c) == 0
  {
    ExpOwedUntouched(ex, user, c);
    SetUntouched(st, user, c);
  }

  /** With no one-to-one record every sum is zero. */
  lemma NoRecordsNoNet(user: UserId, c: UserId)
    ensures ExpYouOwe([], user) == 0 && SetYouOwe([], user) == 0
    ensures ExpYouAreOwed([], user) == 0 && SetYouAreOwed([], user) == 0
    ensures NetOf([], [], user, c) == 0
  {
  }

  /** With no one-to-one record nobody is listed. */
  lemma NoRecordsEmptyList(ex: seq<Expense>, st: seq<Settlement>, user: UserId, l: seq<Entry>, positive: bool)
    requires ex == [] && st == []
    requires forall c :: Listed(l, c) <==> (if positive then NetOf(ex, st, user, c) > 0 else NetOf(ex, st, user, c) < 0)
    ensures l == []
  {
    if l != [] {
      assert Listed(l, l[0].userId);
      NoRecordsNoNet(user, l[0].userId);
    }
  }

  /** The debtor branch as written: when someone else paid an expense and the
      user's unpaid share is positive, the user's `youOwe` grows by that share
      and yet the payer's net comes out positive, which puts the payer on the
      list of people who owe the user. */
  lemma DebtorBranchListsCreditorAsOwing(e: Expense, user: UserId)
    requires Owing(e, user) && FirstSplitOf(user, e.splits).value.amount > 0
    ensures ExpYouOwe([e], user) == FirstSplitOf(user, e.splits).value.amount
    ensures NetOf([e], [], user, e.paidByUserId) == FirstSplitOf(user, e.splits).value.amount
  {
    assert [e][..0] == [];
    assert ExpOwed([e], user, e.paidByUserId) == ExpenseOwed(e, user, e.paidByUserId);
    assert ExpYouOwe([e], user) == ExpenseYouOwe(e, user);
  }

  /* ---------------- the loops ---------------- */

  /** The payer branch (lines 28-36): every counted split adds its amount to
      `youAreOwed` and to its user's `owed`. */
  method AddPayerSplits(t0: Tally, user: UserId, splits: seq<Split>) returns (t: Tally)
    requires Wf(t0)
    ensures Wf(t)
    ensures t.youOwe == t0.youOwe && t.youAreOwed == t0.youAreOwed + CountedTotal(splits, user)
    ensures forall c :: c in t.buckets <==> c in t0.buckets || HasCountedOf(splits, user, c)
    ensures forall c :: Base(t, c) == Bucket(Base(t0, c).owed + CountedOf(splits, user, c), Base(t0, c).owing)
  {
    t := t0;
    var k := 0;
    while k < |splits|
      invariant 0 <= k <= |splits|
      invariant Wf(t)
      invariant t.youOwe == t0.youOwe && t.youAreOwed == t0.youAreOwed + CountedTotal(splits[..k], user)
      invariant forall c :: c in t.buckets <==> c in t0.buckets || HasCountedOf(splits[..k], user, c)
      invariant forall c :: Base(t, c) == Bucket(Base(t0, c).owed + CountedOf(splits[..k], user, c), Base(t0, c).owing)
    {
      var s := splits[k];
      assert splits[..k + 1][..k] == splits[..k] && splits[..k + 1][k] == s;
      if !(s.userId == user || s.paid) {
        t := Bump(t, s.userId, s.amount, 0).(youAreOwed := t.youAreOwed + s.amount);
      }
      k := k + 1;
    }
    assert splits[..k] == splits;
  }

  /** The expense loop (lines 23-44). */
  method AccumulateExpenses(user: UserId, ex: seq<Expense>) returns (t: Tally)
    ensures Wf(t)
    ensures t.youOwe == ExpYouOwe(ex, user) && t.youAreOwed == ExpYouAreOwed(ex, user)
    ensures forall c :: c in t.buckets <==> ExpTouched(ex, user, c)
    ensures forall c :: Base(t, c) == Bucket(ExpOwed(ex, user, c), 0)
  {
    t := Tally(0, 0, map[], []);
    var i := 0;
    while i < |ex|
      invariant 0 <= i <= |ex|
      invariant Wf(t)
      invariant t.youOwe == ExpYouOwe(ex[..i], user) && t.youAreOwed == ExpYouAreOwed(ex[..i], user)
      invariant forall c :: c in t.buckets <==> ExpTouched(ex[..i], user, c)
      invariant forall c :: Base(t, c) == Bucket(ExpOwed(ex[..i], user, c), 0)
    {
      var e := ex[i];
      assert ex[..i + 1][..i] == ex[..i] && ex[..i + 1][i] == e;
      var isPayer := e.paidByUserId == user;
      var mySplit := FirstSplitOf(user, e.splits);
      if isPayer {
        t := AddPayerSplits(t, user, e.splits);
      } else if mySplit.Some? && !mySplit.value.paid {
        t := Bump(t, e.paidByUserId, mySplit.value.amount, 0).(youOwe := t.youOwe + mySplit.value.amount);
      }
      i := i + 1;
    }
    assert ex[..i] == ex;
  }

  /** The body of the settlement loop (lines 55-65): a settlement the user
      paid lowers `youOwe` and the receiver's `owing`; any other (one the
      user received) lowers `youAreOwed` and the payer's `owed`. */
  function SettlementStep(t: Tally, s: Settlement, user: UserId): (r: Tally)
    ensures r.youOwe == t.youOwe + SettlementYouOwe(s, user)
    ensures r.youAreOwed == t.youAreOwed + SettlementYouAreOwed(s, user)
    ensures r.buckets.Keys == t.buckets.Keys + {Counterpart(s, user)}
    ensures forall c :: Base(r, c) == Bucket(Base(t, c).owed + SettlementOwed(s, user, c), Base(t, c).owing + SettlementOwing(s, user, c))
    ensures Wf(t) ==> Wf(r)
  {
    if s.paidByUserId == user then
      Bump(t, s.receivedByUserId, 0, -s.amount).(youOwe := t.youOwe - s.amount)
    else
      Bump(t, s.paidByUserId, -s.amount, 0).(youAreOwed := t.youAreOwed - s.amount)
  }

  /** The settlement loop (lines 54-66). */
  method AccumulateSettlements(user: UserId, st: seq<Settlement>, t0: Tally) returns (t: Tally)
    requires Wf(t0)
    ensures Wf(t)
    ensures t.youOwe == t0.youOwe + SetYouOwe(st, user)
    ensures t.youAreOwed == t0.youAreOwed + SetYouAreOwed(st, user)
    ensures forall c :: c in t.buckets <==> c in t0.buckets || SetTouched(st, user, c)
    ensures forall c :: Base(t, c) == Bucket(Base(t0, c).owed + SetOwed(st, user, c), Base(t0, c).owing + SetOwing(st, user, c))
  {
    t := t0;
    var i := 0;
    while i < |st|
      invariant 0 <= i <= |st|
      invariant Wf(t)
      invariant t.youOwe == t0.youOwe + SetYouOwe(st[..i], user)
      invariant t.youAreOwed == t0.youAreOwed + SetYouAreOwed(st[..i], user)
      invariant forall c :: c in t.buckets <==> c in t0.buckets || SetTouched(st[..i], user, c)
      invariant forall c :: Base(t, c) ==
                  Bucket(Base(t0, c).owed + SetOwed(st[..i], user, c), Base(t0, c).owing + SetOwing(st[..i], user, c))
    {
      assert st[..i + 1][..i] == st[..i] && st[..i + 1][i] == st[i];
      t := SettlementStep(t, st[i], user);
      i := i + 1;
    }
    assert st[..i] == st;
  }

  /* ---------------- classification and sorting ---------------- */

  /** One entry of `youOwe` / `youAreOwedBy`. */
  datatype Entry = Entry(userId: UserId, name: string, imageUrl: Option<string>, amount: int)

  /** The entry for counterpart `c`; a missing user record reads as "Unknown". */
  function Describe(users: map<UserId, UserProfile>, c: UserId, amount: int): Entry {
    if c in users then Entry(c, users[c].name, users[c].imageUrl, amount)
    else Entry(c, "Unknown", None, amount)
  }

  predicate Listed(l: seq<Entry>, c: UserId) {
    exists k :: 0 <= k < |l| && l[k].userId == c
  }

  predicate DistinctIds(l: seq<Entry>) {
    forall i, j :: 0 <= i < j < |l| ==> l[i].userId != l[j].userId
  }

  /** The side of a list: `youAreOwedBy` takes positive nets, `youOwe`
      negative ones. */
  predicate OnSide(net: int, positive: bool) {
    if positive then net > 0 else net < 0
  }

  /** `Math.abs(net)` on the side where `net` is listed. */
  function Amount(net: int, positive: bool): int {
    if positive then net else -net
  }

  /** What one list holds once the classification loop has visited the
      counterparts in `done`. */
  ghost predicate ListOk(t: Tally, users: map<UserId, UserProfile>, done: seq<UserId>, l: seq<Entry>, positive: bool) {
    && (forall c :: Listed(l, c) <==> c in done && OnSide(Net(Base(t, c)), positive))
    && (forall x :: x in l ==> x == Describe(users, x.userId, Amount(Net(Base(t, x.userId)), positive)))
    && DistinctIds(l)
  }

  lemma ListedAppend(l: seq<Entry>, x: Entry, c: UserId)
    ensures Listed(l + [x], c) <==> Listed(l, c) || x.userId == c
  {
    if Listed(l + [x], c) && x.userId != c {
      var k :| 0 <= k < |l + [x]| && (l + [x])[k].userId == c;
      assert k < |l| && l[k].userId == c;
    }
    if Listed(l, c) {
      var k :| 0 <= k < |l| && l[k].userId == c;
      assert (l + [x])[k].userId == c;
    }
    if x.userId == c {
      assert (l + [x])[|l|].userId == c;
    }
  }

  /** Visiting one more counterpart keeps `ListOk`. */
  lemma ListStep(t: Tally, users: map<UserId, UserProfile>, done: seq<UserId>, uid: UserId,
                 l: seq<Entry>, l': seq<Entry>, positive: bool)
    requires ListOk(t, users, done, l, positive) && uid !in done
    requires OnSide(Net(Base(t, uid)), positive) ==>
               l' == l + [Describe(users, uid, Amount(Net(Base(t, uid)), positive))]
    requires !OnSide(Net(Base(t, uid)), positive) ==> l' == l
    ensures ListOk(t, users, done + [uid], l', positive)
  {
    if OnSide(Net(Base(t, uid)), positive) {
      var x := Describe(users, uid, Amount(Net(Base(t, uid)), positive));
      forall c ensures Listed(l', c) <==> c in done + [uid] && OnSide(Net(Base(t, c)), positive) {
        ListedAppend(l, x, c);
      }
      assert !Listed(l, uid);
      forall i, j | 0 <= i < j < |l'| ensures l'[i].userId != l'[j].userId {
        if j == |l| {
          assert l'[i] == l[i] && Listed(l, l[i].userId);
        } else {
          assert l'[i] == l[i] && l'[j] == l[j];
        }
      }
    }
  }

  /** Both lists after visiting the counterparts in `done`. */
  ghost predicate Classified(t: Tally, users: map<UserId, UserProfile>, done: seq<UserId>, youOwe: seq<Entry>, youAreOwedBy: seq<Entry>) {
    ListOk(t, users, done, youOwe, false) && ListOk(t, users, done, youAreOwedBy, true)
  }

  /** The classification loop (lines 72-86), over the dictionary's keys in
      creation order: a zero net is skipped, a positive one goes to
      `youAreOwedBy` and a negative one to `youOwe`, with `|net|` as amount. */
  method Classify(t: Tally, users: map<UserId, UserProfile>) returns (youOwe: seq<Entry>, youAreOwedBy: seq<Entry>)
    requires Wf(t)
    ensures forall c :: Listed(youOwe, c) <==> c in t.buckets && Net(t.buckets[c]) < 0
    ensures forall c :: Listed(youAreOwedBy, c) <==> c in t.buckets && Net(t.buckets[c]) > 0
    ensures forall x :: x in youOwe ==> x == Describe(users, x.userId, -Net(Base(t, x.userId)))
    ensures forall x :: x in youAreOwedBy ==> x == Describe(users, x.userId, Net(Base(t, x.userId)))
    ensures DistinctIds(youOwe) && DistinctIds(youAreOwedBy)
  {
    youOwe, youAreOwedBy := [], [];
    var i := 0;
    while i < |t.order|
      invariant 0 <= i <= |t.order|
      invariant Classified(t, users, t.order[..i], youOwe, youAreOwedBy)
    {
      var uid := t.order[i];
      assert t.order[..i + 1] == t.order[..i] + [uid];
      assert uid !in t.order[..i];
      var b := t.buckets[uid];
      var net := b.owed - b.owing;
      ghost var oweBefore, owedByBefore := youOwe, youAreOwedBy;
      if net != 0 {
        var base := Describe(users, uid, if net < 0 then -net else net);
        if net > 0 {
          youAreOwedBy := youAreOwedBy + [base];
        } else {
          youOwe := youOwe + [base];
        }
      }
      ListStep(t, users, t.order[..i], uid, oweBefore, youOwe, false);
      ListStep(t, users, t.order[..i], uid, owedByBefore, youAreOwedBy, true);
      i := i + 1;
    }
    assert t.order[..i] == t.order;
  }

  ghost predicate SortedDesc(s: seq<Entry>) {
    forall i, j :: 0 <= i < j < |s| ==> s[i].amount >= s[j].amount
  }

  /** `list.sort((a, b) => b.amount - a.amount)` (lines 88-89), in place:
      an insertion sort that moves an entry left only past strictly smaller
      amounts. */
  method SortByAmount(a: array<Entry>)
    modifies a
    ensures SortedDesc(a[..])
    ensures multiset(a[..]) == multiset(old(a[..]))
  {
    var i := 0;
    while i < a.Length
      invariant 0 <= i <= a.Length
      invariant SortedDesc(a[..i])
      invariant multiset(a[..]) == multiset(old(a[..]))
    {
      InsertLeft(a, i);
      i := i + 1;
    }
    assert a[..] == a[..i];
  }

  /** One pass of the insertion sort: the entry at `i` moves left past the
      strictly smaller amounts of the sorted prefix before it. */
  method InsertLeft(a: array<Entry>, i: nat)
    requires i < a.Length && SortedDesc(a[..i])
    modifies a
    ensures SortedDesc(a[..i + 1])
    ensures multiset(a[..]) == multiset(old(a[..]))
    ensures a[i + 1..] == old(a[i + 1..])
  {
    var j: nat := i;
    assert Inserting(a[..], i, j);
    while j > 0 && a[j - 1].amount < a[j].amount
      invariant Inserting(a[..], i, j)
      invariant multiset(a[..]) == multiset(old(a[..]))
      invariant a[i + 1..] == old(a[i + 1..])
    {
      ghost var before := a[..];
      a[j - 1], a[j] := a[j], a[j - 1];
      assert a[..] == Swapped(before, j);
      SwapStep(before, i, j);
      SwapKeepsEntries(before, i, j);
      j := j - 1;
    }
    InsertingDone(a[..], i, j);
  }

  /** The state of `InsertLeft` with the moving entry at `j`: the first
      `i + 1` entries are in order apart from it, and it is larger than
      everything after it. */
  ghost predicate Inserting(s: seq<Entry>, i: nat, j: nat) {
    && j <= i < |s|
    && (forall p, q :: 0 <= p < q <= i && p != j && q != j ==> s[p].amount >= s[q].amount)
    && (forall q :: j < q <= i ==> s[j].amount > s[q].amount)
  }

  /** `s` with the entries at `j - 1` and `j` exchanged. */
  ghost function Swapped(s: seq<Entry>, j: nat): (t: seq<Entry>)
    requires 0 < j < |s|
    ensures |t| == |s| && t[j - 1] == s[j] && t[j] == s[j - 1]
    ensures forall q :: 0 <= q < |s| && q != j - 1 && q != j ==> t[q] == s[q]
  {
    s[j - 1 := s[j]][j := s[j - 1]]
  }

  /** One exchange past a smaller entry keeps the loop's state. */
  lemma SwapStep(s: seq<Entry>, i: nat, j: nat)
    requires Inserting(s, i, j) && 0 < j && s[j - 1].amount < s[j].amount
    ensures Inserting(Swapped(s, j), i, j - 1)
  {
  }

  /** One exchange at or before `i` keeps the entries and the tail after `i`. */
  lemma SwapKeepsEntries(s: seq<Entry>, i: nat, j: nat)
    requires 0 < j <= i < |s|
    ensures multiset(Swapped(s, j)) == multiset(s)
    ensures Swapped(s, j)[i + 1..] == s[i + 1..]
  {
    var t := Swapped(s, j);
    assert s == s[..j - 1] + [s[j - 1], s[j]] + s[j + 1..];
    assert t == s[..j - 1] + [s[j], s[j - 1]] + s[j + 1..];
  }

  /** When the moving entry stops, the first `i + 1` entries are in order. */
  lemma InsertingDone(s: seq<Entry>, i: nat, j: nat)
    requires Inserting(s, i, j) && (j == 0 || s[j - 1].amount >= s[j].amount)
    ensures SortedDesc(s[..i + 1])
  {
    forall p, q | 0 <= p < q <= i ensures s[p].amount >= s[q].amount {
      if q == j {
        assert s[p].amount >= s[j - 1].amount;
      }
    }
  }

  /** A sequence with no repeated element keeps that after a permutation. */
  lemma DistinctPermutation(s: seq<Entry>, t: seq<Entry>)
    requires Distinct(s) && multiset(s) == multiset(t)
    ensures Distinct(t)
  {
    forall i, j | 0 <= i < j < |t| ensures t[i] != t[j] {
      if t[i] == t[j] {
        var x := t[i];
        assert t == t[..j] + t[j..];
        assert x in t[..j] && x in t[j..];
        assert multiset(t)[x] == multiset(t[..j])[x] + multiset(t[j..])[x];
        CountAtMostOne(s, x);
      }
    }
  }

  lemma {:induction false} CountAtMostOne(s: seq<Entry>, x: Entry)
    requires Distinct(s)
    ensures multiset(s)[x] <= 1
  {
    if s != [] {
      assert s == [s[0]] + s[1..];
      assert Distinct(s[1..]) by {
        forall i, j | 0 <= i < j < |s[1..]| ensures s[1..][i] != s[1..][j] {
          assert s[1..][i] == s[i + 1] && s[1..][j] == s[j + 1];
        }
      }
      CountAtMostOne(s[1..], x);
      if s[0] == x {
        assert x !in s[1..] by {
          forall k | 0 <= k < |s[1..]| ensures s[1..][k] != x {
            assert s[1..][k] == s[k + 1];
          }
        }
      }
    }
  }

  /** Entries that are determined by their counterpart and pairwise distinct
      never repeat a counterpart. */
  lemma DistinctEntriesDistinctIds(l: seq<Entry>, users: map<UserId, UserProfile>, amount: UserId -> int)
    requires Distinct(l)
    requires forall x :: x in l ==> x == Describe(users, x.userId, amount(x.userId))
    ensures DistinctIds(l)
  {
    forall i, j | 0 <= i < j < |l| ensures l[i].userId != l[j].userId {
      assert l[i] in l && l[j] in l;
    }
  }

  lemma DistinctIdsDistinct(l: seq<Entry>)
    requires DistinctIds(l)
    ensures Distinct(l)
  {
  }

  /** Sorts a list the way the handler sorts its arrays in place. */
  method Sorted(l: seq<Entry>) returns (r: seq<Entry>)
    ensures SortedDesc(r) && multiset(r) == multiset(l)
  {
    var a := new Entry[|l|](k requires 0 <= k < |l| => l[k]);
    assert a[..] == l;
    SortByAmount(a);
    r := a[..];
  }

  /** A permutation of a list keeps its entries and its counterparts. */
  lemma PermutationKeepsEntries(l: seq<Entry>, s: seq<Entry>)
    requires multiset(s) == multiset(l)
    ensures forall x :: x in s <==> x in l
    ensures forall c :: Listed(s, c) <==> Listed(l, c)
  {
    forall x ensures x in s <==> x in l {
      assert x in s <==> x in multiset(s);
      assert x in l <==> x in multiset(l);
    }
    forall c ensures Listed(s, c) <==> Listed(l, c) {
      if Listed(s, c) {
        var k :| 0 <= k < |s| && s[k].userId == c;
        assert s[k] in l;
        var m :| 0 <= m < |l| && l[m] == s[k];
      }
      if Listed(l, c) {
        var k :| 0 <= k < |l| && l[k].userId == c;
        assert l[k] in s;
        var m :| 0 <= m < |s| && s[m] == l[k];
      }
    }
  }

  /** A classified list read against the record sums: it lists exactly the
      counterparts whose net lies on its side, with `|net|` as amount. */
  lemma ListReportsNet(t: Tally, ex: seq<Expense>, st: seq<Settlement>, user: UserId,
                       users: map<UserId, UserProfile>, l: seq<Entry>, positive: bool)
    requires forall c :: Net(Base(t, c)) == NetOf(ex, st, user, c)
    requires forall c :: NetOf(ex, st, user, c) != 0 ==> c in t.buckets
    requires forall c :: Listed(l, c) <==> c in t.buckets && (if positive then Net(t.buckets[c]) > 0 else Net(t.buckets[c]) < 0)
    requires forall x :: x in l ==> x == Describe(users, x.userId, (if positive then Net(Base(t, x.userId)) else -Net(Base(t, x.userId))))
    ensures forall c :: Listed(l, c) <==> (if positive then NetOf(ex, st, user, c) > 0 else NetOf(ex, st, user, c) < 0)
    ensures forall x :: x in l ==> x == Describe(users, x.userId, (if positive then NetOf(ex, st, user, x.userId) else -NetOf(ex, st, user, x.userId)))
  {
    forall c ensures Listed(l, c) <==> (if positive then NetOf(ex, st, user, c) > 0 else NetOf(ex, st, user, c) < 0) {
      assert Net(Base(t, c)) == NetOf(ex, st, user, c);
    }
  }

  /** The sorted copy of a classified list. */
  lemma SortedListReportsNet(ex: seq<Expense>, st: seq<Settlement>, user: UserId,
                             users: map<UserId, UserProfile>, l: seq<Entry>, s: seq<Entry>, positive: bool)
    requires forall c :: Listed(l, c) <==> (if positive then NetOf(ex, st, user, c) > 0 else NetOf(ex, st, user, c) < 0)
    requires forall x :: x in l ==> x == Describe(users, x.userId, (if positive then NetOf(ex, st, user, x.userId) else -NetOf(ex, st, user, x.userId)))
    requires DistinctIds(l)
    requires multiset(s) == multiset(l)
    ensures forall c :: Listed(s, c) <==> (if positive then NetOf(ex, st, user, c) > 0 else NetOf(ex, st, user, c) < 0)
    ensures forall x :: x in s ==> x == Describe(users, x.userId, (if positive then NetOf(ex, st, user, x.userId) else -NetOf(ex, st, user, x.userId)))
    ensures DistinctIds(s)
  {
    PermutationKeepsEntries(l, s);
    DistinctIdsDistinct(l);
    DistinctPermutation(l, s);
    DistinctEntriesDistinctIds(s, users, c => if positive then NetOf(ex, st, user, c) else -NetOf(ex, st, user, c));
  }

  /** Both accumulation loops (lines 19-66), read against the record sums:
      the totals are the sums of the records' contributions and every
      counterpart with a non-zero net has a bucket holding that net. */
  method Accumulate(user: UserId, ex: seq<Expense>, st: seq<Settlement>) returns (t: Tally)
    ensures Wf(t)
    ensures t.youOwe == ExpYouOwe(ex, user) + SetYouOwe(st, user)
    ensures t.youAreOwed == ExpYouAreOwed(ex, user) + SetYouAreOwed(st, user)
    ensures forall c :: Net(Base(t, c)) == NetOf(ex, st, user, c)
    ensures forall c :: NetOf(ex, st, user, c) != 0 ==> c in t.buckets
    ensures ex == [] && st == [] ==> t.youOwe == 0 && t.youAreOwed == 0
  {
    t := AccumulateExpenses(user, ex);
    t := AccumulateSettlements(user, st, t);
    forall c | NetOf(ex, st, user, c) != 0
      ensures c in t.buckets
    {
      if !ExpTouched(ex, user, c) && !SetTouched(st, user, c) {
        UntouchedNetZero(ex, st, user, c);
      }
    }
  }

  datatype OweDetails = OweDetails(youOwe: seq<Entry>, youAreOwedBy: seq<Entry>)

  datatype UserBalancesView = UserBalancesView(youOwe: int, youAreOwed: int, totalBalance: int, oweDetails: OweDetails)

  /** The two detail lists (lines 68-89): classified, then sorted. */
  method Report(t: Tally, ex: seq<Expense>, st: seq<Settlement>, user: UserId, users: map<UserId, UserProfile>)
    returns (youOwe: seq<Entry>, youAreOwedBy: seq<Entry>)
    requires Wf(t)
    requires forall c :: Net(Base(t, c)) == NetOf(ex, st, user, c)
    requires forall c :: NetOf(ex, st, user, c) != 0 ==> c in t.buckets
    ensures forall c :: Listed(youOwe, c) <==> NetOf(ex, st, user, c) < 0
    ensures forall c :: Listed(youAreOwedBy, c) <==> NetOf(ex, st, user, c) > 0
    ensures forall x :: x in youOwe ==> x == Describe(users, x.userId, -NetOf(ex, st, user, x.userId))
    ensures forall x :: x in youAreOwedBy ==> x == Describe(users, x.userId, NetOf(ex, st, user, x.userId))
    ensures DistinctIds(youOwe) && DistinctIds(youAreOwedBy)
    ensures SortedDesc(youOwe) && SortedDesc(youAreOwedBy)
    ensures ex == [] && st == [] ==> youOwe == [] && youAreOwedBy == []
  {
    var oweList, owedByList := Classify(t, users);
    youOwe := Sorted(oweList);
    youAreOwedBy := Sorted(owedByList);
    ListReportsNet(t, ex, st, user, users, oweList, false);
    ListReportsNet(t, ex, st, user, users, owedByList, true);
    SortedListReportsNet(ex, st, user, users, oweList, youOwe, false);
    SortedListReportsNet(ex, st, user, users, owedByList, youAreOwedBy, true);
    if ex == [] && st == [] {
      NoRecordsEmptyList(ex, st, user, youOwe, false);
      NoRecordsEmptyList(ex, st, user, youAreOwedBy, true);
    }
  }

  /** getUserBalances for `user` over the whole expense and settlement
      tables; `users` stands for the user records looked up by id. */
  method GetUserBalances(user: UserId, exps: seq<Expense>, setts: seq<Settlement>, users: map<UserId, UserProfile>)
    returns (r: UserBalancesView)
    ensures var ex := OneToOneExpenses(exps, user);
            var st := OneToOneSettlements(setts, user);
            && r.youOwe == ExpYouOwe(ex, user) + SetYouOwe(st, user)
            && r.youAreOwed == ExpYouAreOwed(ex, user) + SetYouAreOwed(st, user)
            && (forall c :: Listed(r.oweDetails.youOwe, c) <==> NetOf(ex, st, user, c) < 0)
            && (forall c :: Listed(r.oweDetails.youAreOwedBy, c) <==> NetOf(ex, st, user, c) > 0)
            && (forall x :: x in r.oweDetails.youOwe ==> x == Describe(users, x.userId, -NetOf(ex, st, user, x.userId)))
            && (forall x :: x in r.oweDetails.youAreOwedBy ==> x == Describe(users, x.userId, NetOf(ex, st, user, x.userId)))
    ensures r.totalBalance == r.youAreOwed - r.youOwe
    ensures DistinctIds(r.oweDetails.youOwe) && DistinctIds(r.oweDetails.youAreOwedBy)
    ensures SortedDesc(r.oweDetails.youOwe) && SortedDesc(r.oweDetails.youAreOwedBy)
    ensures OneToOneExpenses(exps, user) == [] && OneToOneSettlements(setts, user) == [] ==>
              r == UserBalancesView(0, 0, 0, OweDetails([], []))
  {
    var ex := OneToOneExpenses(exps, user);
    var st := OneToOneSettlements(setts, user);
    var t := Accumulate(user, ex, st);
    var youOwe, youAreOwedBy := Report(t, ex, st, user, users);
    r := UserBalancesView(t.youOwe, t.youAreOwed, t.youAreOwed - t.youOwe, OweDetails(youOwe, youAreOwedBy));
  }
}
