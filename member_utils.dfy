/** The two writes made when a member signs in for the first time: linking
    the member row to the new auth user, and granting the user the default
    "member" role. The database tables are fields of a `Tables` object; the
    errors the database would answer with are inputs. */
module MemberUtils {
  import opened Common

  const MemberRole: string := "member"

  datatype MemberRow = MemberRow(id: string, memberNumber: string, status: string, authUserId: Option<string>)

  datatype RoleRow = RoleRow(userId: string, role: string)

  /** `members.update({ auth_user_id }).eq('id', memberId)` on the rows keyed
      by id: the row with that id, if any, gets the auth user id; nothing
      else changes, and no row is added or removed. */
  function SetAuthId(members: map<string, MemberRow>, memberId: string, authUserId: string): (r: map<string, MemberRow>)
    ensures r.Keys == members.Keys
    ensures forall id :: id in r && id != memberId ==> r[id] == members[id]
    ensures memberId in r ==>
              r[memberId].authUserId == Some(authUserId)
              && r[memberId].(authUserId := None) == members[memberId].(authUserId := None)
  {
    if memberId in members then members[memberId := members[memberId].(authUserId := Some(authUserId))]
    else members
  }

  /** Linking the same member to the same user twice is the same as once. */
  lemma SetAuthIdIdempotent(members: map<string, MemberRow>, memberId: string, authUserId: string)
    ensures SetAuthId(SetAuthId(members, memberId, authUserId), memberId, authUserId)
            == SetAuthId(members, memberId, authUserId)
  {
  }

  /** The role rows after `addMemberRole(userId)` succeeds: one
      (userId, "member") row is appended when none exists yet. */
  function WithMemberRole(roles: seq<RoleRow>, userId: string): (r: seq<RoleRow>)
    ensures RoleRow(userId, MemberRole) in r
    ensures |roles| <= |r| <= |roles| + 1 && r[..|roles|] == roles
  {
    if RoleRow(userId, MemberRole) in roles then roles else roles + [RoleRow(userId, MemberRole)]
  }

  /** The role is granted once and only once: a user who had no member row
      ends with exactly one, a user who had some keeps them as they were, and
      every other row (other users, other roles) keeps its count. */
  lemma MemberRoleCounts(roles: seq<RoleRow>, userId: string, other: RoleRow)
    requires other != RoleRow(userId, MemberRole)
    ensures multiset(WithMemberRole(roles, userId))[RoleRow(userId, MemberRole)]
            == if RoleRow(userId, MemberRole) in roles then multiset(roles)[RoleRow(userId, MemberRole)] else 1
    ensures multiset(WithMemberRole(roles, userId))[other] == multiset(roles)[other]
  {
  }

  /** Granting the role twice is the same as granting it once. */
  lemma WithMemberRoleIdempotent(roles: seq<RoleRow>, userId: string)
    ensures WithMemberRole(WithMemberRole(roles, userId), userId) == WithMemberRole(roles, userId)
  {
  }

  /** The two tables the sign-up path writes to. */
  class Tables {
    var members: map<string, MemberRow>
    var userRoles: seq<RoleRow>

    constructor(members: map<string, MemberRow>, userRoles: seq<RoleRow>)
      ensures this.members == members && this.userRoles == userRoles
    {
      this.members := members;
      this.userRoles := userRoles;
    }

    /** `updateMemberWithAuthId`: the update's error is rethrown and leaves
        the table as it was; otherwise the member row is linked. */
    method UpdateMemberWithAuthId(memberId: string, authUserId: string, updateError: Option<string>)
      returns (r: Result<(), string>)
      modifies this
      ensures updateError.Some? ==> r == Err(updateError.value) && members == old(members)
      ensures updateError.None? ==> r == Ok(()) && members == SetAuthId(old(members), memberId, authUserId)
      ensures userRoles == old(userRoles)
    {
      if updateError.Some? {
        return Err(updateError.value);
      }
      members := SetAuthId(members, memberId, authUserId);
      r := Ok(());
    }

    /** `addMemberRole`: look up an existing (userId, "member") row, rethrow
        the lookup's error, insert the row only when there is none, and
        rethrow the insert's error. */
    method AddMemberRole(userId: string, lookupError: Option<string>, insertError: Option<string>)
      returns (r: Result<(), string>, inserted: bool)
      modifies this
      ensures lookupError.Some? ==> r == Err(lookupError.value) && !inserted
      ensures inserted <==> lookupError.None? && insertError.None? && RoleRow(userId, MemberRole) !in old(userRoles)
      ensures r.Ok? <==>
                lookupError.None? && (RoleRow(userId, MemberRole) in old(userRoles) || insertError.None?)
      ensures (lookupError.None? && RoleRow(userId, MemberRole) !in old(userRoles) && insertError.Some?)
                ==> r == Err(insertError.value)
      ensures r.Ok? ==> userRoles == WithMemberRole(old(userRoles), userId)
      ensures r.Err? ==> userRoles == old(userRoles)
      ensures members == old(members)
    {
      inserted := false;
      if lookupError.Some? {
        return Err(lookupError.value), false;
      }
      var existing := RoleRow(userId, MemberRole) in userRoles;
      if !existing {
        if insertError.Some? {
          return Err(insertError.value), false;
        }
        userRoles := userRoles + [RoleRow(userId, MemberRole)];
        inserted := true;
      }
      r := Ok(());
    }
  }
}
