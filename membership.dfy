/** Group membership rules of convex/groups.js: which groups a user sees
    (getGroupOrMembers), who may create an invite link (generateInviteToken)
    and what joining through an invite link does to a group's member list
    (joinGroupByToken). The groups table is a sequence in the database's
    scan order; the current user, the new token and the join time are
    parameters. */
module GroupMembership {
  import opened Records

  /** `members.find((m) => m.userId === user && m.role === "admin")`
      succeeds; whoever passes it is a member. */
  predicate IsAdmin(members: seq<Membership>, user: UserId): (r: bool)
    ensures r ==> IsMember(members, user)
  {
    exists i :: 0 <= i < |members| && members[i].userId == user && members[i].role == Admin
  }

  /** `allGroups.filter(...)`: the groups whose member list contains `user`,
      in table order. */
  function UserGroups(groups: seq<Group>, user: UserId): (r: seq<Group>)
    ensures |r| <= |groups|
    ensures forall g :: g in r <==> g in groups && IsMember(g.members, user)
  {
    if groups == [] then []
    else
      var rest := UserGroups(groups[1..], user);
      assert forall g :: g in groups <==> g == groups[0] || g in groups[1..];
      if IsMember(groups[0].members, user) then [groups[0]] + rest else rest
  }

  /** `UserGroups` keeps each of the user's groups as often as it occurs. */
  lemma {:induction false} UserGroupsCounts(groups: seq<Group>, user: UserId)
    ensures forall g :: multiset(UserGroups(groups, user))[g] ==
              if IsMember(g.members, user) then multiset(groups)[g] else 0
  {
    if groups != [] {
      UserGroupsCounts(groups[1..], user);
      assert groups == [groups[0]] + groups[1..];
    }
  }

  /** `UserGroups` keeps table order: filtering a concatenation filters
      each part and concatenates the results, and one group is kept exactly
      when the user is a member. */
  lemma {:induction false} UserGroupsKeepsOrder(a: seq<Group>, b: seq<Group>, user: UserId)
    ensures UserGroups(a + b, user) == UserGroups(a, user) + UserGroups(b, user)
    ensures forall g :: UserGroups([g], user) == if IsMember(g.members, user) then [g] else []
  {
    if a == [] {
      assert a + b == b;
    } else {
      assert (a + b)[0] == a[0] && (a + b)[1..] == a[1..] + b;
      UserGroupsKeepsOrder(a[1..], b, user);
    }
    forall g ensures UserGroups([g], user) == if IsMember(g.members, user) then [g] else [] {
      assert [g][1..] == [];
    }
  }

  /** `groups.find((g) => g._id === id)`: the first group with that id. */
  function FindGroup(groups: seq<Group>, id: GroupId): (r: Option<Group>)
    ensures r.None? <==> forall k :: 0 <= k < |groups| ==> groups[k].id != id
    ensures r.Some? ==> r.value in groups && r.value.id == id
    ensures forall k ::
              (0 <= k < |groups| && groups[k].id == id
               && forall j :: 0 <= j < k ==> groups[j].id != id) ==> r == Some(groups[k])
  {
    if groups == [] then None
    else if groups[0].id == id then Some(groups[0])
    else
      assert forall k :: 1 <= k < |groups| ==> groups[k] == groups[1..][k - 1];
      FindGroup(groups[1..], id)
  }

  /** One entry of the `groups` list returned by getGroupOrMembers. */
  datatype GroupSummary = GroupSummary(id: GroupId, name: string, description: string, memberCount: nat)

  function Summaries(groups: seq<Group>): (r: seq<GroupSummary>)
    ensures |r| == |groups|
    ensures forall i :: 0 <= i < |groups| ==>
              && r[i].id == groups[i].id
              && r[i].name == groups[i].name
              && r[i].description == groups[i].description
              && r[i].memberCount == |groups[i].members|
  {
    seq(|groups|, i requires 0 <= i < |groups| =>
      GroupSummary(groups[i].id, groups[i].name, groups[i].description, |groups[i].members|))
  }

  datatype MemberDetail = MemberDetail(id: UserId, name: string, email: string, imageUrl: Option<string>, role: Role)

  /** The members whose user record exists, in member order: the entries
      `filter((member) => member !== null)` keeps (line 234). */
  function WithRecord(members: seq<Membership>, users: map<UserId, UserProfile>): (k: seq<Membership>)
    ensures |k| <= |members|
    ensures forall m :: m in k <==> m in members && m.userId in users
  {
    if members == [] then []
    else
      var rest := WithRecord(members[1..], users);
      assert forall m :: m in members <==> m == members[0] || m in members[1..];
      if members[0].userId in users then [members[0]] + rest else rest
  }

  /** `WithRecord` keeps each member with a user record as often as it occurs. */
  lemma {:induction false} WithRecordCounts(members: seq<Membership>, users: map<UserId, UserProfile>)
    ensures forall m :: multiset(WithRecord(members, users))[m] ==
              if m.userId in users then multiset(members)[m] else 0
  {
    if members != [] {
      WithRecordCounts(members[1..], users);
      assert members == [members[0]] + members[1..];
    }
  }

  /** `WithRecord` keeps member order: filtering a concatenation filters
      each part and concatenates the results, and one member is kept exactly
      when its user record exists. */
  lemma {:induction false} WithRecordKeepsOrder(a: seq<Membership>, b: seq<Membership>, users: map<UserId, UserProfile>)
    ensures WithRecord(a + b, users) == WithRecord(a, users) + WithRecord(b, users)
    ensures forall m :: WithRecord([m], users) == if m.userId in users then [m] else []
  {
    if a == [] {
      assert a + b == b;
    } else {
      assert (a + b)[0] == a[0] && (a + b)[1..] == a[1..] + b;
      WithRecordKeepsOrder(a[1..], b, users);
    }
    forall m ensures WithRecord([m], users) == if m.userId in users then [m] else [] {
      assert [m][1..] == [];
    }
  }

  /** `memberDetails` with the `null` entries of members whose user record
      is missing filtered out (lines 218-234): one detail per member with a
      user record, in member order, carrying the record's profile and the
      member's role. */
  function MemberDetails(members: seq<Membership>, users: map<UserId, UserProfile>): (r: seq<MemberDetail>)
    ensures var k := WithRecord(members, users);
            && |r| == |k|
            && forall i :: 0 <= i < |r| ==>
                 && k[i].userId in users && r[i].id == k[i].userId && r[i].role == k[i].role
                 && r[i].name == users[r[i].id].name && r[i].email == users[r[i].id].email
                 && r[i].imageUrl == users[r[i].id].imageUrl
    ensures |r| <= |members|
  {
    var k := WithRecord(members, users);
    seq(|k|, i requires 0 <= i < |k| =>
      assert k[i] in k;
      var u := users[k[i].userId];
      MemberDetail(k[i].userId, u.name, u.email, u.imageUrl, k[i].role))
  }

  /** Every detail belongs to a member with that role and carries the
      member's own profile, and every member with a user record has a
      detail. */
  lemma MemberDetailsCoverMembers(members: seq<Membership>, users: map<UserId, UserProfile>)
    ensures forall d :: d in MemberDetails(members, users) ==>
              && (exists i :: 0 <= i < |members| && members[i].userId == d.id && d.role == members[i].role)
              && d.id in users && d.name == users[d.id].name && d.email == users[d.id].email
              && d.imageUrl == users[d.id].imageUrl
    ensures forall i :: 0 <= i < |members| && members[i].userId in users ==>
              exists d :: d in MemberDetails(members, users) && d.id == members[i].userId && d.role == members[i].role
  {
    var r, k := MemberDetails(members, users), WithRecord(members, users);
    forall d | d in r
      ensures exists i :: 0 <= i < |members| && members[i].userId == d.id && d.role == members[i].role
    {
      var j :| 0 <= j < |r| && r[j] == d;
      assert k[j] in k;
      var i :| 0 <= i < |members| && members[i] == k[j];
    }
    forall i | 0 <= i < |members| && members[i].userId in users
      ensures exists d :: d in r && d.id == members[i].userId && d.role == members[i].role
    {
      assert members[i] in k;
      var j :| 0 <= j < |k| && k[j] == members[i];
      assert r[j] in r;
    }
  }

  datatype SelectedGroup = SelectedGroup(
    id: GroupId,
    name: string,
    description: string,
    createdBy: UserId,
    members: seq<MemberDetail>)

  datatype GroupsView = GroupsView(selectedGroup: Option<SelectedGroup>, groups: seq<GroupSummary>)

  /** getGroupOrMembers (lines 204-262): the summaries of the user's groups,
      and, when a group id is asked for, that group's details, provided it is
      one of the user's groups. */
  function GetGroupOrMembers(groups: seq<Group>, user: UserId, selected: Option<GroupId>, users: map<UserId, UserProfile>)
    : (r: Result<GroupsView>)
    ensures selected.None? ==> r.Success? && r.value.selectedGroup.None?
    ensures selected.Some? ==>
              (r == Failure(GroupNotFoundOrNotMember) <==>
               forall g :: g in groups && IsMember(g.members, user) ==> g.id != selected.value)
    ensures r.Failure? ==> r.error == GroupNotFoundOrNotMember
    ensures r.Success? ==> r.value.groups == Summaries(UserGroups(groups, user))
    ensures r.Success? && selected.Some? ==>
              && r.value.selectedGroup.Some?
              && r.value.selectedGroup.value.id == selected.value
              && var g := FindGroup(UserGroups(groups, user), selected.value);
                 && g.Some?
                 && r.value.selectedGroup.value
                    == SelectedGroup(g.value.id, g.value.name, g.value.description, g.value.createdBy,
                                     MemberDetails(g.value.members, users))
  {
    var mine := UserGroups(groups, user);
    var summaries := Summaries(mine);
    if selected.None? then Success(GroupsView(None, summaries))
    else
      match FindGroup(mine, selected.value)
      case None =>
        assert forall g :: g in groups && IsMember(g.members, user) ==> g.id != selected.value by {
          forall g | g in groups && IsMember(g.members, user) ensures g.id != selected.value {
            var k :| 0 <= k < |mine| && mine[k] == g;
          }
        }
        Failure(GroupNotFoundOrNotMember)
      case Some(g) =>
        Success(GroupsView(Some(SelectedGroup(g.id, g.name, g.description, g.createdBy, MemberDetails(g.members, users))), summaries))
  }

  /** Every summary getGroupOrMembers lists is a group that contains the user
      and reports that group's member count. */
  lemma ListedGroupsContainUser(groups: seq<Group>, user: UserId, selected: Option<GroupId>, users: map<UserId, UserProfile>, s: GroupSummary)
    requires GetGroupOrMembers(groups, user, selected, users).Success?
    requires s in GetGroupOrMembers(groups, user, selected, users).value.groups
    ensures exists g :: g in groups && IsMember(g.members, user) && g.id == s.id && s.memberCount == |g.members|
  {
    var mine := UserGroups(groups, user);
    var k :| 0 <= k < |Summaries(mine)| && Summaries(mine)[k] == s;
    assert mine[k] in mine;
  }

  /** generateInviteToken (lines 272-282): a missing group and a caller who
      is not an admin member are refused. The success branch is the intended
      behaviour: the group gets the new token, which is also what the
      mutation returns. As written, line 280 calls `nanoid`, which the file
      never imports, so an admin's call throws there and no token is
      stored. */
  function GenerateInviteToken(group: Option<Group>, user: UserId, token: string): (r: Result<Group>)
    ensures group.None? ==> r == Failure(GroupNotFound)
    ensures group.Some? ==> (r == Failure(NotAdmin) <==> !IsAdmin(group.value.members, user))
    ensures r.Success? <==> group.Some? && IsAdmin(group.value.members, user)
    ensures r.Success? ==>
              && r.value.inviteToken == Some(token)
              && r.value == group.value.(inviteToken := Some(token))
  {
    if group.None? then Failure(GroupNotFound)
    else if !IsAdmin(group.value.members, user) then Failure(NotAdmin)
    else Success(group.value.(inviteToken := Some(token)))
  }

  /** Only an admin member can ever obtain an invite link. */
  lemma InviteTokenNeedsAdmin(group: Option<Group>, user: UserId, token: string)
    requires GenerateInviteToken(group, user, token).Success?
    ensures group.Some? && IsMember(group.value.members, user)
  {
  }

  /** The position of the first group whose invite token is `token`. */
  function FindByToken(groups: seq<Group>, token: string): (r: Option<nat>)
    ensures r.None? <==> forall k :: 0 <= k < |groups| ==> groups[k].inviteToken != Some(token)
    ensures r.Some? ==>
              && r.value < |groups|
              && groups[r.value].inviteToken == Some(token)
              && forall k :: 0 <= k < r.value ==> groups[k].inviteToken != Some(token)
  {
    if groups == [] then None
    else if groups[0].inviteToken == Some(token) then Some(0)
    else match FindByToken(groups[1..], token)
      case None => None
      case Some(k) => Some(k + 1)
  }

  /** The member list after `user` joins: unchanged when already there,
      otherwise one plain member appended (lines 298-310). */
  function Joined(members: seq<Membership>, user: UserId, now: int): (r: seq<Membership>)
    ensures IsMember(r, user)
    ensures IsMember(members, user) ==> r == members
    ensures !IsMember(members, user) ==> |r| == |members| + 1 && r[..|members|] == members
                                         && r[|members|] == Membership(user, Member, now)
  {
    if IsMember(members, user) then members
    else
      var r := members + [Membership(user, Member, now)];
      assert r[|members|].userId == user;
      r
  }

  datatype Joining = Joining(groupId: GroupId, groups: seq<Group>)

  /** joinGroupByToken (lines 290-313): the first group carrying `token` is
      joined; an unknown token is refused. The table is returned with that
      one group's member list updated. */
  function JoinGroupByToken(groups: seq<Group>, user: UserId, token: string, now: int): (r: Result<Joining>)
    ensures r.Failure? <==> forall k :: 0 <= k < |groups| ==> groups[k].inviteToken != Some(token)
    ensures r.Failure? ==> r.error == InvalidInviteLink
    ensures r.Success? ==>
              var i := FindByToken(groups, token).value;
              && |r.value.groups| == |groups|
              && r.value.groupId == groups[i].id
              && r.value.groups[i] == groups[i].(members := Joined(groups[i].members, user, now))
              && forall k :: 0 <= k < |groups| && k != i ==> r.value.groups[k] == groups[k]
  {
    match FindByToken(groups, token)
    case None => Failure(InvalidInviteLink)
    case Some(i) =>
      var g := groups[i];
      Success(Joining(g.id, groups[i := g.(members := Joined(g.members, user, now))]))
  }

  /** After a successful join the user is a member of the joined group, the
      members it had keep their entries and order, and the only entry that
      can be new is a plain member with the join time. */
  lemma JoinAddsOnlyUser(groups: seq<Group>, user: UserId, token: string, now: int)
    requires JoinGroupByToken(groups, user, token, now).Success?
    ensures var i := FindByToken(groups, token).value;
            var after := JoinGroupByToken(groups, user, token, now).value.groups[i].members;
            var before := groups[i].members;
            && IsMember(after, user)
            && |before| <= |after| <= |before| + 1
            && after[..|before|] == before
            && (|after| == |before| + 1 ==> after[|before|] == Membership(user, Member, now))
  {
  }

  /** Joining twice with the same link is the same as joining once: the
      second call finds the same group and changes nothing. */
  lemma {:induction false} JoinIdempotent(groups: seq<Group>, user: UserId, token: string, now: int, later: int)
    requires JoinGroupByToken(groups, user, token, now).Success?
    ensures var once := JoinGroupByToken(groups, user, token, now).value;
            JoinGroupByToken(once.groups, user, token, later) == Success(once)
  {
    var i := FindByToken(groups, token).value;
    var once := JoinGroupByToken(groups, user, token, now).value;
    FindByTokenSame(groups, once.groups, token, i);
    var g := once.groups[i];
    assert g.members == Joined(g.members, user, later);
    assert once.groups[i := g.(members := Joined(g.members, user, later))] == once.groups;
  }

  /** Two tables that agree on which positions carry `token` up to the first
      match find the same position. */
  lemma {:induction false} FindByTokenSame(a: seq<Group>, b: seq<Group>, token: string, i: nat)
    requires |a| == |b| && FindByToken(a, token) == Some(i)
    requires b[i].inviteToken == a[i].inviteToken
    requires forall k :: 0 <= k < |a| && k != i ==> b[k] == a[k]
    ensures FindByToken(b, token) == Some(i)
  {
    if i > 0 {
      assert b[0] == a[0];
      FindByTokenSame(a[1..], b[1..], token, i - 1);
    }
  }

  /** Joining keeps a member list free of duplicate users. */
  lemma JoinKeepsMembersDistinct(members: seq<Membership>, user: UserId, now: int)
    requires Distinct(MemberIds(members))
    ensures Distinct(MemberIds(Joined(members, user, now)))
  {
    var r := Joined(members, user, now);
    if !IsMember(members, user) {
      var ids := MemberIds(r);
      forall i, j | 0 <= i < j < |ids| ensures ids[i] != ids[j] {
        if j == |members| {
          assert members[i].userId != user;
        } else {
          assert ids[i] == MemberIds(members)[i] && ids[j] == MemberIds(members)[j];
        }
      }
    }
  }
}
