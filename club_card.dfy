/**
 * The club card (web/components/clubs/club-card.tsx): the one action the current
 * user is offered on a club, and the member count shown on the card.
 */
module ClubCard {
  import opened Opt
  import opened Clubs

  /** The four footers the card can show. */
  datatype CardAction =
    | ManageClub            // "Manage Club", opens the management dialog
    | MemberBadge           // a disabled "Member" button
    | PendingBadge          // a disabled "Pending Approval" button
    | JoinClub(clubId: string)  // "Join Club", which passes this id to `onJoin`

  /** The status of the current user's first entry in the members list, if any. */
  function Membership(members: seq<Member>): (st: Option<MemberStatus>)
    ensures st.None? <==> forall m :: m in members ==> m.userId != CurrentUserId
    ensures st.Some? ==> exists m :: m in members && m.userId == CurrentUserId && m.status == st.value
  {
    match FindMember(members, CurrentUserId)
    case None => None
    case Some(m) => Some(m.status)
  }

  /** The footer of the card: creator first, then approved, then pending, else join. */
  function ActionFor(club: Club): (a: CardAction)
    ensures a.ManageClub? <==> club.creatorId == CurrentUserId
    ensures a.MemberBadge? <==> club.creatorId != CurrentUserId && Membership(club.members) == Some(Approved)
    ensures a.PendingBadge? <==> club.creatorId != CurrentUserId && Membership(club.members) == Some(Pending)
    ensures a.JoinClub? <==> club.creatorId != CurrentUserId && Membership(club.members).None?
    ensures a.JoinClub? ==> a.clubId == club.id
  {
    if club.creatorId == CurrentUserId then ManageClub
    else match Membership(club.members)
      case Some(Approved) => MemberBadge
      case Some(Pending) => PendingBadge
      case None => JoinClub(club.id)
  }

  /** The count under the description: approved members only. */
  function MemberCount(club: Club): (n: nat)
    ensures n <= |club.members|
    ensures n + |WithStatus(club.members, Pending)| == |club.members|
  {
    StatusesPartition(club.members);
    |WithStatus(club.members, Approved)|
  }

  /** The creator is offered "Manage Club" whatever the members list says about them. */
  lemma CreatorAlwaysManages(club: Club, members: seq<Member>)
    requires club.creatorId == CurrentUserId
    ensures ActionFor(club.(members := members)) == ManageClub
  {
  }

  /** Only the first entry of the current user counts: later entries of theirs change nothing. */
  lemma FirstEntryDecides(club: Club, later: seq<Member>)
    requires Membership(club.members).Some?
    ensures ActionFor(club.(members := club.members + later)) == ActionFor(club)
  {
    FindMemberAppend(club.members, later, CurrentUserId);
  }

  /**
   * A user who is offered "Join Club" and is appended as a pending member is then
   * shown "Pending Approval", and the member count does not move.
   */
  lemma JoinRequestShowsPending(club: Club, name: string, avatar: Option<string>)
    requires ActionFor(club).JoinClub?
    ensures var joined := club.(members := club.members + [Member(CurrentUserId, name, avatar, Pending)]);
      ActionFor(joined) == PendingBadge && MemberCount(joined) == MemberCount(club)
  {
    var entry := Member(CurrentUserId, name, avatar, Pending);
    FindMemberAppend(club.members, [entry], CurrentUserId);
    WithStatusAppend(club.members, [entry], Approved);
  }

  /** Approving a pending entry (replacing it by an approved copy) raises the count by one. */
  lemma {:induction false} ApprovalRaisesCount(club: Club, before: seq<Member>, m: Member, after: seq<Member>)
    requires club.members == before + [m] + after && m.status == Pending
    ensures MemberCount(club.(members := before + [m.(status := Approved)] + after)) == MemberCount(club) + 1
  {
    WithStatusAppend(before + [m], after, Approved);
    WithStatusAppend(before, [m], Approved);
    WithStatusAppend(before + [m.(status := Approved)], after, Approved);
    WithStatusAppend(before, [m.(status := Approved)], Approved);
  }
}
