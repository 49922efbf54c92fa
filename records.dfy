/** Records read by the balance engine: users, groups and their memberships,
    expenses with their splits, and settlements. Amounts are integers in minor
    currency units, so every comparison and every running sum is exact. */
module Records {

  datatype Option<T> = None | Some(value: T)

  /** The errors the group handlers throw, one constructor per message. */
  datatype Error =
    | GroupNotFound             // "Group not found"
    | NotAMember                // "You are not a member of this group"
    | GroupNotFoundOrNotMember  // "Group not found or you're not a member"
    | NotAdmin                  // "Only admin can generate invite link"
    | InvalidInviteLink         // "Invalid invite link"

  datatype Result<T> = Success(value: T) | Failure(error: Error)

  type UserId = string
  type GroupId = string

  /** One participant's share of an expense; `paid` marks a share already settled. */
  datatype Split = Split(userId: UserId, amount: int, paid: bool)

  /** An expense; `groupId == None` makes it a one-to-one expense. */
  datatype Expense = Expense(groupId: Option<GroupId>, paidByUserId: UserId, date: int, splits: seq<Split>)

  /** Money that actually changed hands from `paidByUserId` to `receivedByUserId`. */
  datatype Settlement = Settlement(groupId: Option<GroupId>, paidByUserId: UserId, receivedByUserId: UserId, amount: int)

  /** The fields of a user record that the handlers copy into their results. */
  datatype UserProfile = UserProfile(name: string, email: string, imageUrl: Option<string>)

  datatype Role = Admin | Member

  /** `joinedAt` is an opaque timestamp supplied by the caller. */
  datatype Membership = Membership(userId: UserId, role: Role, joinedAt: int)

  datatype Group = Group(
    id: GroupId,
    name: string,
    description: string,
    createdBy: UserId,
    members: seq<Membership>,
    inviteToken: Option<string>)

  predicate Distinct<T(==)>(s: seq<T>) {
    forall i, j :: 0 <= i < j < |s| ==> s[i] != s[j]
  }

  /** `members.some((m) => m.userId === user)`: the user's id is among the
      member ids. */
  predicate IsMember(members: seq<Membership>, user: UserId): (r: bool)
    ensures r <==> user in MemberIds(members)
  {
    exists i :: 0 <= i < |members| && members[i].userId == user
  }

  /** The user ids of a member list, in member order. */
  function MemberIds(members: seq<Membership>): (ids: seq<UserId>)
    ensures |ids| == |members|
    ensures forall i :: 0 <= i < |ids| ==> ids[i] == members[i].userId
  {
    seq(|members|, i requires 0 <= i < |members| => members[i].userId)
  }

  /** `splits.find((s) => s.userId === user)`: the FIRST split of `user`, if any. */
  function FirstSplitOf(user: UserId, splits: seq<Split>): (r: Option<Split>)
    ensures r.None? <==> forall k :: 0 <= k < |splits| ==> splits[k].userId != user
    ensures r.Some? ==> r.value in splits && r.value.userId == user
    ensures forall k ::
              (0 <= k < |splits| && splits[k].userId == user
               && forall j :: 0 <= j < k ==> splits[j].userId != user) ==> r == Some(splits[k])
  {
    if splits == [] then None
    else if splits[0].userId == user then Some(splits[0])
    else
      assert forall k :: 1 <= k < |splits| ==> splits[k] == splits[1..][k - 1];
      FirstSplitOf(user, splits[1..])
  }

  /** A split that creates debt toward the payer: not the payer's own and
      not yet paid (`groups.js` line 86, `dashboard.js` lines 30 and 218). */
  predicate Counted(s: Split, payer: UserId) {
    s.userId != payer && !s.paid
  }

  /** JavaScript's `a < b` on two strings: lexicographic order of their
      characters, a proper prefix coming first. */
  predicate LexLess(a: string, b: string) {
    if |b| == 0 then false
    else if |a| == 0 then true
    else if a[0] != b[0] then a[0] < b[0]
    else LexLess(a[1..], b[1..])
  }

  /** `LexLess` is the usual string order: `a < b` exactly when, after the
      longest common prefix, `a` has ended while `b` has not, or `a`'s next
      character is the smaller one. */
  lemma {:induction false} LexLessFirstDifference(a: string, b: string)
    ensures LexLess(a, b) <==>
              exists k :: 0 <= k <= |a| && k < |b| && a[..k] == b[..k] && (k == |a| || a[k] < b[k])
  {
    if |b| == 0 {
    } else if |a| == 0 {
      assert a[..0] == b[..0];
    } else if a[0] != b[0] {
      if LexLess(a, b) {
        assert a[..0] == b[..0];
      }
      SharedPrefixSharesHead(a, b);
    } else {
      LexLessFirstDifference(a[1..], b[1..]);
      if LexLess(a, b) {
        var k :| 0 <= k <= |a[1..]| && k < |b[1..]| && a[1..][..k] == b[1..][..k] && (k == |a[1..]| || a[1..][k] < b[1..][k]);
        assert a[..k + 1] == [a[0]] + a[1..][..k];
        assert b[..k + 1] == [b[0]] + b[1..][..k];
      }
      forall k | 0 <= k <= |a| && k < |b| && a[..k] == b[..k] && (k == |a| || a[k] < b[k])
        ensures LexLess(a[1..], b[1..])
      {
        assert k > 0;
        assert a[1..][..k - 1] == a[..k][1..] && b[1..][..k - 1] == b[..k][1..];
      }
    }
  }

  /** Two sequences with a common non-empty prefix start alike. */
  lemma SharedPrefixSharesHead(a: seq<char>, b: seq<char>)
    ensures forall k :: 0 < k <= |a| && k <= |b| && a[..k] == b[..k] ==> a[0] == b[0]
  {
    forall k | 0 < k <= |a| && k <= |b| && a[..k] == b[..k] ensures a[0] == b[0] {
      assert a[..k][0] == b[..k][0];
    }
  }

  /** `LexLess` is a strict total order: of two distinct ids exactly one
      comes first, and no id comes before itself. This is what makes the
      ledger's `if (a >= b) return;` visit each unordered pair once. */
  lemma {:induction false} LexLessTotal(a: string, b: string)
    ensures !LexLess(a, a)
    ensures !(LexLess(a, b) && LexLess(b, a))
    ensures a != b ==> LexLess(a, b) || LexLess(b, a)
  {
    if |a| > 0 && |b| > 0 {
      LexLessTotal(a[1..], b[1..]);
      LexLessTotal(a[1..], a[1..]);
      if a[0] == b[0] && a != b {
        assert a == [a[0]] + a[1..] && b == [b[0]] + b[1..];
        assert a[1..] != b[1..];
      }
    } else if |a| > 0 {
      LexLessTotal(a[1..], a[1..]);
    }
  }
}
