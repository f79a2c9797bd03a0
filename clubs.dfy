/**
 * The club records (web/lib/data/clubs.ts) and the two list queries the club
 * components make on a club's members: `find` by user id and `filter` by status.
 */
module Clubs {
  import opened Opt

  /** The simulated signed-in user of the clubs pages. */
  const CurrentUserId: string := "user-1"

  datatype MemberStatus = Pending | Approved

  datatype Member = Member(userId: string, name: string, avatar: Option<string>, status: MemberStatus)

  datatype Category = Tech | Cultural | Sports | Academic | Other

  datatype Club = Club(
    id: string,
    name: string,
    description: string,
    posterUrl: string,
    creatorId: string,
    members: seq<Member>,
    category: Category)

  datatype ClubEvent = ClubEvent(
    id: string,
    clubId: string,
    title: string,
    date: string,
    location: string,
    description: string)

  /** `members.filter(m => m.status === status)`. */
  function WithStatus(members: seq<Member>, status: MemberStatus): (r: seq<Member>)
    ensures |r| <= |members|
    ensures forall m :: m in r <==> m in members && m.status == status
  {
    if members == [] then []
    else (if members[0].status == status then [members[0]] else []) + WithStatus(members[1..], status)
  }

  /** The filter keeps the original order: it works piecewise on a concatenation. */
  lemma {:induction false} WithStatusAppend(a: seq<Member>, b: seq<Member>, status: MemberStatus)
    ensures WithStatus(a + b, status) == WithStatus(a, status) + WithStatus(b, status)
  {
    if a != [] {
      assert (a + b)[1..] == a[1..] + b;
      WithStatusAppend(a[1..], b, status);
    } else {
      assert a + b == b;
    }
  }

  /** Every member is either pending or approved, so the two filters split the list. */
  lemma {:induction false} StatusesPartition(members: seq<Member>)
    ensures |WithStatus(members, Pending)| + |WithStatus(members, Approved)| == |members|
  {
    if members != [] {
      StatusesPartition(members[1..]);
    }
  }

  /** `members.find(m => m.userId === userId)`: the first entry of that user. */
  function FindMember(members: seq<Member>, userId: string): (r: Option<Member>)
    ensures r.Some? ==> exists i :: 0 <= i < |members| && members[i] == r.value &&
                          (forall j :: 0 <= j < i ==> members[j].userId != userId)
    ensures r.Some? ==> r.value.userId == userId
    ensures r.None? <==> forall m :: m in members ==> m.userId != userId
  {
    if members == [] then None
    else if members[0].userId == userId then Some(members[0])
    else
      var rest := FindMember(members[1..], userId);
      assert forall m :: m in members ==> m == members[0] || m in members[1..];
      rest
  }

  /** Entries appended behind a user's first entry do not change which entry is found. */
  lemma {:induction false} FindMemberAppend(a: seq<Member>, b: seq<Member>, userId: string)
    ensures FindMember(a, userId).Some? ==> FindMember(a + b, userId) == FindMember(a, userId)
    ensures FindMember(a, userId).None? ==> FindMember(a + b, userId) == FindMember(b, userId)
  {
    if a != [] {
      assert (a + b)[1..] == a[1..] + b;
      FindMemberAppend(a[1..], b, userId);
    } else {
      assert a + b == b;
    }
  }
}
