# Splitr balance engine in Dafny

This project models the money logic of Splitr, a shared-expense app. That logic sits in the Convex handlers `convex/groups.js` and `convex/dashboard.js`. It is lifted out as functions and methods. The current user, the group, the expense and settlement records, the user records and the groups table are passed in as parameters.

- **Group ledger** (`getGroupExpenses`): modules `Netting`, `GroupLedger` and `LedgerProperties`. The handler fills a `totals` map and a directed ledger `ledger[a][b]` ("a owes b") from the group's expense splits and settlements. It then nets every unordered pair of members once, the pair being visited from its lexicographically smaller id. Finally it formats one balance row per member, with `owes` and `owedBy` lists. Each loop is a method proved equal to a specification function. The properties are proved about those functions:
  - each expense sums to zero;
  - netting leaves every pair one-sided and non-negative, keeps each pair's difference, and is idempotent;
  - each member's total is their net position on the netted ledger (what the others owe them minus what they owe) plus twice what they received in settlements;
  - `owes` and `owedBy` mirror each other.
- **Membership rules** (`getGroupOrMembers`, `generateInviteToken`, `joinGroupByToken`): module `GroupMembership`.
- **Dashboard** (`getUserBalances`, `getUserGroups`, `getTotalSpent`): modules `UserBalances` and `DashboardTotals`. Each accumulation loop is proved against sums over the records. The detail lists are proved to be classified by the sign of each counterpart's net. They are also proved sorted by an in-place insertion sort on an array.

Amounts are integers (minor currency units), so `net === 0` and every comparison is exact. JavaScript's `a < b` on ids is `Records.LexLess`, which is lexicographic order on characters.

Three behaviours are modelled exactly as the code does them, and lemmas exhibit each one:

- **Settlements raise both totals.** A settlement ADDS its amount to both the payer's and the receiver's total (`groups.js` lines 114-115). The comment above it and the worked example at line 104 expect the receiver's total to go down. `LedgerProperties.WorkedExampleAsCoded` proves that, on the example of lines 70-110, the model gives user1 a total of 50 where the comment says 30. Because of this, the totals sum to twice the settled amount rather than zero.
- **No cycle collapse.** Netting is strictly pairwise. The three-way cycle in the comment at lines 124-133 is left as it is (`Netting.CycleIsLeftAsIs`).
- **Debtor branch credits `owed`.** In `getUserBalances`, the branch for an expense someone else paid credits the payer's `owed` bucket (`dashboard.js` line 41). A creditor whom the user owes therefore comes out with a positive net and is listed under `youAreOwedBy` (`UserBalances.DebtorBranchListsCreditorAsOwing`).

## Model

| member | source | states |
|---|---|---|
| `Records.FirstSplitOf` | convex/dashboard.js:25 | `splits.find` by user: None exactly when no split has the user, otherwise the first split that has it |
| `Records.IsMember` | convex/groups.js:14 | `members.some((m) => m.userId === user)` holds exactly when the user's id is among the member ids |
| `Records.LexLessFirstDifference` | convex/groups.js:136 | `LexLess(a, b)`, the model of string `a < b`, holds exactly when, after the longest common prefix, `a` has ended while `b` has not, or `a`'s next character is smaller |
| `Records.LexLessTotal` | convex/groups.js:136 | string `<` on ids is irreflexive, asymmetric and total on distinct ids, so `if (a >= b) return` visits each unordered pair exactly once |
| `Netting.Netted` | convex/groups.js:134-154 | the netted ledger has the same keys; every entry is >= 0; of two opposite entries at least one is 0; `ledger[a][b] - ledger[b][a]` is unchanged |
| `Netting.NetPair` | convex/groups.js:139-152 | the three-way `diff` branch leaves the pair one-sided and non-negative and keeps its difference |
| `Netting.VisitPair` | convex/groups.js:135-152 | one turn of the inner loop nets the pair exactly when `ids[i] < ids[j]` and keeps every other pair as the loop invariant requires |
| `Netting.Simplify` | convex/groups.js:134-154 | the nested netting loops produce exactly the pointwise netted ledger |
| `Netting.NettedFixesOneSided` | convex/groups.js:124-154 | a ledger that already has one direction per pair is unchanged by netting |
| `Netting.NettedIdempotent` | convex/groups.js:134-154 | netting the netted ledger again changes nothing |
| `Netting.NettedMagnitude` | convex/groups.js:139-152 | whichever entry of a pair survives holds the absolute difference of the originals |
| `Netting.SettlementNeverRaisesNetDebt` | convex/groups.js:118 | lowering `ledger[payer][receiver]` never increases what the payer owes after netting, and never decreases what the receiver owes |
| `Netting.CycleIsLeftAsIs` | convex/groups.js:124-133 | the commented three-way cycle is one-sided, so netting leaves it unchanged: user1 still owes user2 10 |
| `GroupLedger.ZeroTotals` | convex/groups.js:49 | one zero total per member and no other key |
| `GroupLedger.ZeroLedger` | convex/groups.js:59-66 | one zero entry for every ordered pair of distinct members and no other key |
| `GroupLedger.InitLedger` | convex/groups.js:59-66 | the initialisation loops build exactly the zero ledger |
| `GroupLedger.AfterSplit` | convex/groups.js:84-96 | the payer's own split and paid splits change nothing; otherwise the payer gains `amt`, the debtor loses `amt`, and `ledger[debtor][payer]` grows by `amt` |
| `GroupLedger.ApplySplit` | convex/groups.js:85-95 | the body of the split loop computes exactly `AfterSplit` |
| `GroupLedger.ApplyExpense` | convex/groups.js:82-96 | the split loop of one expense computes the fold of `AfterSplit` over its splits |
| `GroupLedger.AfterExpenses` | convex/groups.js:81-97 | folding the expenses over a book keeps one total per member and one ledger entry per ordered pair of distinct members, so every `ledger[debtor][payer]` the loop touches exists |
| `GroupLedger.SettlementEffect` | convex/groups.js:112-119 | as written, a settlement adds its amount to both the payer's and the receiver's totals and lowers `ledger[payer][receiver]`; no other total or ledger entry changes |
| `GroupLedger.AfterSettlement` | convex/groups.js:113-118 | one settlement keeps the book's shape (same total keys, same ledger keys); its effect on the entries is `SettlementEffect` |
| `GroupLedger.AfterSettlements` | convex/groups.js:112-119 | folding the settlements keeps the book's shape |
| `GroupLedger.Accumulated` | convex/groups.js:49-119 | the tables just before netting have one total per member and one ledger entry per ordered pair of distinct members, so every entry has its reverse entry for netting to read |
| `GroupLedger.ApplySettlement` | convex/groups.js:113-118 | the body of the settlement loop computes exactly one settlement step as written |
| `GroupLedger.ApplyExpenses` | convex/groups.js:81-97 | the expense loops compute the fold of `AfterSplit` over all splits of all expenses |
| `GroupLedger.ApplySettlements` | convex/groups.js:112-119 | the settlement loop computes the fold of the settlement step |
| `GroupLedger.BuildLedger` | convex/groups.js:49-154 | the builder returns the accumulated totals and the netted accumulated ledger |
| `GroupLedger.Owes` | convex/groups.js:163-165 | `m` lists `{to, amount}` exactly for the other members with a positive `ledger[m][to]`, with that amount; with distinct member ids no `to` appears twice |
| `GroupLedger.OwedBy` | convex/groups.js:166-168 | `m` lists `{from, amount}` exactly for the other members with a positive `ledger[from][m]`, with that amount; with distinct member ids no `from` appears twice |
| `GroupLedger.Balances` | convex/groups.js:160-169 | one row per member in member order, with its role, total, `owes` and `owedBy` |
| `GroupLedger.OwesMirrorsOwedBy` | convex/groups.js:160-169 | `m` owes `x` amount `v` exactly when `x`'s owedBy lists `{from: m, amount: v}` |
| `GroupLedger.GetGroupExpenses` | convex/groups.js:10-190 | a missing group gives "Group not found"; a non-member gives "not a member"; a member gets the group's id, name, description and invite token, the member list, the group's expenses and settlements as given, and the balance rows of the netted ledger |
| `LedgerProperties.SplitZeroSum` | convex/groups.js:84-96 | one split leaves the sum of all totals unchanged |
| `LedgerProperties.ExpenseZeroSum` | convex/groups.js:81-97 | one expense changes the totals by a net of zero across members |
| `LedgerProperties.ExpensesZeroSum` | convex/groups.js:81-97 | any number of expenses keep the sum of the totals |
| `LedgerProperties.SettlementSum` | convex/groups.js:112-119 | as written, one settlement raises the sum of the totals by twice its amount |
| `LedgerProperties.SettledTotalsSum` | convex/groups.js:114-115 | adding the amount to the payer's and then to the receiver's total raises the sum of the totals by twice the amount, also when payer and receiver coincide |
| `LedgerProperties.MovedTotalsSum` | convex/groups.js:92-93 | adding `amt` to the payer's total and taking it from the debtor's keeps the sum |
| `LedgerProperties.SettlementsSum` | convex/groups.js:112-119 | the settlements raise the sum of the totals by twice the settled amount |
| `LedgerProperties.AccumulatedSum` | convex/groups.js:49-119 | totals sum to 0 after the expenses, and to twice the settled amount after the settlements |
| `LedgerProperties.AccumulatedTotalsIdentity` | convex/groups.js:81-119 | before netting, each member's total is what the others owe them minus what they owe, plus twice what they received in settlements |
| `LedgerProperties.NettingKeepsPosition` | convex/groups.js:134-154 | netting does not change any member's net position |
| `LedgerProperties.PositionIsCreditsMinusDebts` | convex/groups.js:160-169 | on a non-negative ledger, the sum of owedBy minus the sum of owes is the member's net position |
| `LedgerProperties.MemberTotalIdentity` | convex/groups.js:160-169 | each member's total equals their owedBy sum minus their owes sum, plus twice what they received |
| `LedgerProperties.GroupBalanceRow` | convex/groups.js:160-169 | a row never lists its own member; every listed amount is > 0; `totalBalance` is owedBy minus owes plus twice the amount received |
| `LedgerProperties.ExampleAfterExpense` | convex/groups.js:68-97 | the commented expense (user1 pays 60 split three ways) gives totals 40, -20, -20 and `ledger[user2][user1] = ledger[user3][user1] = 20` |
| `LedgerProperties.WorkedExampleAsCoded` | convex/groups.js:99-119 | after the commented settlement (user2 pays user1 10), user1's total is 50, not the 30 the comment states; the ledger matches the comment |
| `GroupMembership.IsAdmin` | convex/groups.js:275-277 | whoever passes the admin `find` is a member of the group |
| `GroupMembership.UserGroups` | convex/groups.js:205-208 | exactly the groups whose members include the user |
| `GroupMembership.UserGroupsKeepsOrder` | convex/groups.js:205-208 | the filter keeps table order: filtering `a + b` gives the filtered `a` followed by the filtered `b`, and a single group is kept exactly when the user is a member |
| `GroupMembership.UserGroupsCounts` | convex/groups.js:205-208 | each of the user's groups is kept as often as it occurs in the table, and no other group is kept |
| `GroupMembership.FindGroup` | convex/groups.js:212 | None exactly when no group has the id, otherwise the first group with that id |
| `GroupMembership.Summaries` | convex/groups.js:244-249 | one summary per group with its id, name, description and `memberCount = members.length` |
| `GroupMembership.WithRecord` | convex/groups.js:218-234 | exactly the members whose user record exists |
| `GroupMembership.WithRecordCounts` | convex/groups.js:218-234 | each member with a user record is kept as often as it occurs, and no other member is kept |
| `GroupMembership.WithRecordKeepsOrder` | convex/groups.js:218-234 | the filter keeps member order: filtering `a + b` gives the filtered `a` followed by the filtered `b`, and a single member is kept exactly when its user record exists |
| `GroupMembership.MemberDetails` | convex/groups.js:218-234 | one detail per member kept by `WithRecord`, in the same order, with that member's id and role and the profile of its user record |
| `GroupMembership.MemberDetailsCoverMembers` | convex/groups.js:218-234 | every detail belongs to a member with that role and carries the member's profile; every member with a user record has a detail |
| `GroupMembership.GetGroupOrMembers` | convex/groups.js:204-262 | lists the summaries of the user's groups only; an asked-for id fails with "Group not found or you're not a member" exactly when no group of the user has it; otherwise the selected group is the first of the user's groups with that id, with its id, name, description and creator and its member details |
| `GroupMembership.ListedGroupsContainUser` | convex/groups.js:244-260 | every listed summary comes from a group containing the user and reports its member count |
| `GroupMembership.GenerateInviteToken` | convex/groups.js:272-282 | a missing group gives "Group not found"; a non-admin gives "Only admin"; otherwise the group gets the token and is otherwise unchanged |
| `GroupMembership.InviteTokenNeedsAdmin` | convex/groups.js:275-278 | a successful token generation implies that the group exists and the caller is a member |
| `GroupMembership.FindByToken` | convex/groups.js:291-294 | the first group carrying the token, or None exactly when no group has it |
| `GroupMembership.Joined` | convex/groups.js:298-310 | an existing member leaves `members` unchanged; otherwise exactly one `member` entry for the user is appended after the old list |
| `GroupMembership.JoinGroupByToken` | convex/groups.js:290-313 | an unknown token gives "Invalid invite link"; otherwise only the first matching group changes |
| `GroupMembership.JoinAddsOnlyUser` | convex/groups.js:301-310 | after a join the user is a member, prior members are untouched, and at most one `member` entry was added |
| `GroupMembership.JoinIdempotent` | convex/groups.js:298-299 | joining again with the same link changes nothing |
| `GroupMembership.FindByTokenSame` | convex/groups.js:291-294 | a table that differs only inside the found group, with that group's token unchanged, finds the same group again |
| `GroupMembership.JoinKeepsMembersDistinct` | convex/groups.js:301-310 | joining never duplicates a user in the member list |
| `UserBalances.Bump` | convex/dashboard.js:35 | `??=` creates a zero bucket only for a new key, appends a new key to the key order and leaves the order alone for an old one, and adds to exactly that bucket |
| `UserBalances.OneToOneExpenses` | convex/dashboard.js:12-17 | exactly the expenses without a group that the user paid or has a split in |
| `UserBalances.OneToOneExpensesCounts` | convex/dashboard.js:12-17 | each such expense is kept as often as it occurs, and no other expense is kept |
| `UserBalances.OneToOneSettlements` | convex/dashboard.js:48-52 | exactly the settlements without a group that the user paid or received |
| `UserBalances.OneToOneSettlementsCounts` | convex/dashboard.js:48-52 | each such settlement is kept as often as it occurs, and no other settlement is kept |
| `UserBalances.AddPayerSplits` | convex/dashboard.js:28-36 | as payer, each unpaid split of another user adds its amount to `youAreOwed` and to that user's `owed`; the user's own split is skipped |
| `UserBalances.AccumulateExpenses` | convex/dashboard.js:23-44 | the expense loop's totals and buckets are the sums of each expense's contributions; a bucket exists exactly for the counterparts an expense touched |
| `UserBalances.SettlementStep` | convex/dashboard.js:55-65 | a settlement the user paid lowers `youOwe` and the receiver's `owing`; one received lowers `youAreOwed` and the payer's `owed` |
| `UserBalances.AccumulateSettlements` | convex/dashboard.js:54-66 | the settlement loop adds the settlements' contributions to the totals and buckets |
| `UserBalances.Accumulate` | convex/dashboard.js:19-66 | every counterpart with a non-zero net over the records has a bucket holding that net; no records means zero totals |
| `UserBalances.UntouchedNetZero` | convex/dashboard.js:72-74 | a counterpart no record touches has net 0 |
| `UserBalances.DebtorBranchListsCreditorAsOwing` | convex/dashboard.js:37-42 | when someone else paid, the user's unpaid share raises `youOwe` yet gives the payer a positive net |
| `UserBalances.Classify` | convex/dashboard.js:72-86 | a counterpart is in `youOwe` exactly when its net is < 0, and in `youAreOwedBy` exactly when it is > 0; amount is `abs(net)`; no counterpart repeats |
| `UserBalances.InsertLeft` | convex/dashboard.js:88-89 | one insertion pass extends the sorted prefix, permutes the array and leaves the entries after the pass's position where they were |
| `UserBalances.SortByAmount` | convex/dashboard.js:88-89 | the in-place sort leaves the array in non-increasing amount order and is a permutation |
| `UserBalances.Sorted` | convex/dashboard.js:88-89 | the sorted list is in non-increasing amount order and is a permutation of the input |
| `UserBalances.DistinctPermutation` | convex/dashboard.js:88-89 | sorting cannot make a counterpart appear twice |
| `UserBalances.Report` | convex/dashboard.js:68-89 | both lists are sorted, free of repeats, and list exactly the counterparts with a net of their sign, with amount `abs(net)` |
| `UserBalances.NoRecordsEmptyList` | convex/dashboard.js:69-70 | with no one-to-one records, both lists are empty |
| `UserBalances.GetUserBalances` | convex/dashboard.js:5-98 | `totalBalance == youAreOwed - youOwe`; totals and lists are as computed from the one-to-one records; with none, all three totals are 0 and both lists are empty |
| `DashboardTotals.GroupExpensesOf` | convex/dashboard.js:205-208 | exactly the expenses of the group |
| `DashboardTotals.GroupExpensesOfCounts` | convex/dashboard.js:205-208 | each expense of the group is kept as often as it occurs, and no other expense is kept |
| `DashboardTotals.GroupSettlementsOf` | convex/dashboard.js:236-247 | exactly the group's settlements that the user paid or received |
| `DashboardTotals.GroupSettlementsOfCounts` | convex/dashboard.js:236-247 | each such settlement is kept as often as it occurs, and no other settlement is kept |
| `DashboardTotals.ExpenseShare` | convex/dashboard.js:213-232 | what one expense adds to a group balance is the dashboard's `youAreOwed - youOwe` for that expense (lines 27-42) |
| `DashboardTotals.SettlementShare` | convex/dashboard.js:249-257 | what one settlement adds to a group balance is the dashboard's `youAreOwed - youOwe` for that settlement (lines 55-65) |
| `DashboardTotals.GroupBalance` | convex/dashboard.js:210-257 | the balance is the sum of the expense shares (others' unpaid splits as payer, minus the user's own unpaid split otherwise), plus each settlement paid, minus each settlement received; it is 0 with no records |
| `DashboardTotals.GetUserGroups` | convex/dashboard.js:195-267 | one entry per group of the user, in table order; each balance is the sum of the shares of that group's expenses and of the group's settlements the user paid or received; every listed group contains the user |
| `DashboardTotals.ExpenseSharesAreNet` | convex/dashboard.js:213-233 | the expense part of a group balance is the dashboard's `youAreOwed - youOwe` over the same expenses |
| `DashboardTotals.SettlementSharesAreNet` | convex/dashboard.js:249-257 | the settlement part of a group balance is the dashboard's `youAreOwed - youOwe` over the same settlements |
| `DashboardTotals.GroupBalanceIsTotalBalance` | convex/dashboard.js:210-257 | a group balance equals the `totalBalance` arithmetic of line 94 applied to the group's records |
| `DashboardTotals.Since` | convex/dashboard.js:108-111 | exactly the expenses dated at or after the start of the year |
| `DashboardTotals.SinceCounts` | convex/dashboard.js:108-111 | each such expense is kept as often as it occurs, and no other expense is kept |
| `DashboardTotals.InvolvedIn` | convex/dashboard.js:114-118 | exactly the expenses the user paid or has a split in |
| `DashboardTotals.InvolvedInCounts` | convex/dashboard.js:114-118 | each such expense is kept as often as it occurs, and no other expense is kept |
| `DashboardTotals.Spent` | convex/dashboard.js:122-128 | one expense adds the amount of the user's first split, paid or not, and 0 when the user has no split |
| `DashboardTotals.TotalSpent` | convex/dashboard.js:120-130 | the total is the sum of the user's first split amount over the involved expenses of the year, and equals the same sum over all of the year's expenses |
| `DashboardTotals.InvolvementFilterKeepsTotal` | convex/dashboard.js:114-128 | the involvement filter never changes the total |
| `DashboardTotals.PaidWithoutSplitSpendsNothing` | convex/dashboard.js:122-128 | an expense the user paid without holding a split contributes 0 |

## Left out

- Convex plumbing is not modelled: `ctx.db` queries, indexes and `patch`, `ctx.runQuery(getCurrentUser)`, and the `Promise.all` fan-out. The user id, the group, the records, the groups table and the user records are parameters. The table's scan order is the sequence order, and `.first()` means the first match in that order.
- Name, email and image lookups are opaque profile data (`UserProfile`). `getGroupExpenses` reads `u._id` from each member's user record and would fail on a missing one, so the model assumes every member has a user record.
- `nanoid(10)` and `Date.now()` are not modelled. The token and the join time are parameters.
- GroupMembership.GenerateInviteToken: the success branch models the intended behaviour. As written, groups.js never imports `nanoid`, so every call that passes the admin check throws a ReferenceError at line 280, before the patch at line 281, and no token is ever stored.
- The start-of-year timestamp of `getTotalSpent` is a parameter. The local-time calendar arithmetic behind it is not modelled.
- `getMonthlySpending` (dashboard.js lines 134-187) is not modelled: it depends entirely on local-time month bucketing of `Date`.
- The React page and components, and the payment-reminder job, are not modelled: they are UI rendering, cron scheduling, HTTP and e-mail delivery.
- The `name` and `imageUrl` that getGroupExpenses copies into each member row and into `userLookupMap` (lines 30-40, 171-174) are not modelled: they are profile data looked up by id, and the balance rows carry the member's id and role. The handler's `expenses` and `settlements` inputs are the group's records as its two queries return them (lines 17-26).
- JavaScript numbers are modelled as unbounded integers, so floating-point rounding is not reproduced.
- GroupLedger.GetGroupExpenses: requires that member ids are distinct and that every counted split and every settlement names members on both sides. The source crashes on only two of those inputs: a counted split whose debtor is not a member (`ledger[debtor]` at line 95) and a settlement whose payer is not a member (`ledger[s.paidByUserId]` at line 118). It does not crash on the other two. For a counted split whose payer is not a member, lines 92 and 95 write NaN under the payer's id, and line 93 still lowers the member debtor's total. For a settlement whose receiver is not a member, line 115 and line 118 write NaN, and line 114 still raises the member payer's total. Those NaN entries never reach a balance row, but the moved member totals do. The requires also excludes these non-crashing inputs, so the model does not describe those outputs.
- GroupLedger.AfterSettlement: for a settlement from a member to themselves, the source writes NaN into `ledger[p][p]`. The model leaves the ledger unchanged in that case. The balance rows read that entry: lines 163-164 reach it through `Object.entries(ledger[p])` and line 167 as `ledger[other][m.id]` with `other === m.id`. Both drop it, because `NaN > 0` is false. Netting skips `a === b` at line 136. So the rows are the same as in the model.
- Records.LexLess: compares characters by code point, while JavaScript compares UTF-16 code units. The two orders agree on ids with no character above U+FFFF, which includes Convex's alphanumeric ids. Beyond that they can disagree: U+E000 comes before U+10000 by code point, but after it by code unit, because U+10000 is encoded starting with U+D800. The order only decides from which side each pair is visited. The netted ledger `Netting.Netted` does not depend on it.
- UserBalances.Classify: iterates the buckets in creation order. `Object.entries` would list integer-like keys first, which Convex ids never are.
- UserBalances.SortByAmount: the contract states sorted-and-permutation. It does not state that entries with equal amounts keep their order, although the insertion sort (like the engine's stable sort) does keep it.
