/**
 * The membership-request dialog (web/components/clubs/manage-club-modal.tsx):
 * what it shows for a club. It only reads the club; approving and rejecting go
 * through the callbacks, whose arguments each row carries.
 */
module ManageClubModal {
  import opened Opt
  import opened Clubs

  /** One request row: the member's name and the arguments of its two buttons. */
  datatype RequestRow = RequestRow(
    name: string,
    rejectArgs: (string, string),   // `onReject(clubId, userId)`
    approveArgs: (string, string))  // `onApprove(clubId, userId)`

  /** The body of the dialog. */
  datatype Requests =
    | NoPendingRequests           // the line "No pending requests."
    | Rows(rows: seq<RequestRow>)

  function Row(club: Club, m: Member): RequestRow {
    RequestRow(m.name, (club.id, m.userId), (club.id, m.userId))
  }

  function RowsOf(club: Club, pending: seq<Member>): (rows: seq<RequestRow>)
    ensures |rows| == |pending|
    ensures forall i :: 0 <= i < |pending| ==> rows[i] == Row(club, pending[i])
  {
    seq(|pending|, i requires 0 <= i < |pending| => Row(club, pending[i]))
  }

  /** The dialog for `club`, or `None` when there is no club and nothing is rendered. */
  function Render(club: Option<Club>): (view: Option<Requests>)
    ensures view.None? <==> club.None?
    ensures club.Some? ==> (view.value.NoPendingRequests? <==> forall m :: m in club.value.members ==> m.status != Pending)
    ensures club.Some? && view.value.Rows? ==>
      var pending := WithStatus(club.value.members, Pending);
      |view.value.rows| == |pending| > 0 &&
      forall i :: 0 <= i < |pending| ==> view.value.rows[i] == Row(club.value, pending[i])
  {
    match club
    case None => None
    case Some(c) =>
      var pending := WithStatus(c.members, Pending);
      if |pending| == 0 then Some(NoPendingRequests)
      else
        assert pending[0] in pending;
        Some(Rows(RowsOf(c, pending)))
  }

  /**
   * The rows are the pending members, one each, in the order of the members list:
   * each row names its own member, and both of its buttons pass the club's id with that member's id.
   */
  lemma RowsFollowPendingMembers(club: Club, before: seq<Member>, m: Member, after: seq<Member>)
    requires club.members == before + [m] + after && m.status == Pending
    ensures Render(Some(club)).value.Rows?
    ensures var i := |WithStatus(before, Pending)|;
      var rows := Render(Some(club)).value.rows;
      i < |rows| && rows[i] == RequestRow(m.name, (club.id, m.userId), (club.id, m.userId))
  {
    WithStatusAppend(before + [m], after, Pending);
    WithStatusAppend(before, [m], Pending);
    assert m in club.members;
  }

  /** Every row belongs to a pending member: approved members never get one. */
  lemma EveryRowIsPendingMember(club: Club, row: RequestRow)
    requires Render(Some(club)).value.Rows?
    requires row in Render(Some(club)).value.rows
    ensures exists m :: m in club.members && m.status == Pending && row == Row(club, m)
  {
    var rows := Render(Some(club)).value.rows;
    var pending := WithStatus(club.members, Pending);
    var i :| 0 <= i < |rows| && rows[i] == row;
    assert pending[i] in pending;
  }
}
