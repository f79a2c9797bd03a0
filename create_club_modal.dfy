/**
 * The "Start a New Club" form (web/components/clubs/create-club-modal.tsx): its
 * state fields, the new club record it builds, and the submit handler that
 * hands the record over, closes the dialog and clears the form.
 *
 * The poster comes from a file the browser reads into a data URI; that URI is
 * an input here (`SetPoster`).
 */
module CreateClubModal {
  import opened Opt
  import opened Clubs
  import ClubCard
  import ManageClubModal

  /** The poster of a club created without an uploaded image. */
  const DefaultPosterUrl: string :=
    "https://images.unsplash.com/photo-1511632765486-a01980e01a18?q=80&w=2070&auto=format&fit=crop"

  /** The name given to the creator's own member entry. */
  const CreatorName: string := "Current User"

  /** A club record without its id, as handed to `onCreate`; the store adds the id. */
  datatype ClubDraft = ClubDraft(
    name: string,
    description: string,
    posterUrl: string,
    category: Category,
    creatorId: string,
    members: seq<Member>)

  /** The record the store keeps once it gave the draft an id. */
  function Stored(d: ClubDraft, id: string): Club {
    Club(id, d.name, d.description, d.posterUrl, d.creatorId, d.members, d.category)
  }

  /** The record built from the form: the creator is its only member, already approved. */
  function NewClub(name: string, description: string, category: Category, posterUri: Option<string>): (d: ClubDraft)
    ensures d.name == name && d.description == description && d.category == category
    ensures d.creatorId == CurrentUserId
    ensures d.members == [Member(CurrentUserId, CreatorName, None, Approved)]
    ensures posterUri.Some? && posterUri.value != "" ==> d.posterUrl == posterUri.value
    ensures posterUri.None? || posterUri.value == "" ==> d.posterUrl == DefaultPosterUrl
  {
    ClubDraft(
      name,
      description,
      if posterUri.Some? && posterUri.value != "" then posterUri.value else DefaultPosterUrl,
      category,
      CurrentUserId,
      [Member(CurrentUserId, CreatorName, None, Approved)])
  }

  /**
   * Once stored, a new club shows its creator "Manage Club", counts one member,
   * and its request dialog shows no pending requests.
   */
  lemma NewClubIsManagedByCreator(name: string, description: string, category: Category,
                                  posterUri: Option<string>, id: string)
    ensures var club := Stored(NewClub(name, description, category, posterUri), id);
      ClubCard.ActionFor(club) == ClubCard.ManageClub &&
      ClubCard.MemberCount(club) == 1 &&
      ManageClubModal.Render(Some(club)) == Some(ManageClubModal.NoPendingRequests)
  {
    var club := Stored(NewClub(name, description, category, posterUri), id);
    assert club.members == [Member(CurrentUserId, CreatorName, None, Approved)];
    assert WithStatus(club.members[1..], Approved) == [];
  }

  /** A call the submit handler makes on its owner, in order. */
  datatype FormEffect = Created(draft: ClubDraft) | Closed

  /** The form's state fields. */
  class CreateClubForm {
    var name: string
    var description: string
    var category: Category
    var posterUri: Option<string>

    /** The category select offers Tech, Cultural, Sports and Academic; "Other" is never chosen. */
    predicate Valid()
      reads this
    {
      category != Other
    }

    /** A fresh form: empty fields, "Tech" selected, no poster. */
    constructor ()
      ensures Valid()
      ensures name == "" && description == "" && category == Tech && posterUri == None
    {
      name := "";
      description := "";
      category := Tech;
      posterUri := None;
    }

    method SetName(value: string)
      modifies this
      ensures name == value
      ensures description == old(description) && category == old(category) && posterUri == old(posterUri)
    {
      name := value;
    }

    method SetDescription(value: string)
      modifies this
      ensures description == value
      ensures name == old(name) && category == old(category) && posterUri == old(posterUri)
    {
      description := value;
    }

    method SetCategory(value: Category)
      requires value != Other
      modifies this
      ensures Valid()
      ensures category == value
      ensures name == old(name) && description == old(description) && posterUri == old(posterUri)
    {
      category := value;
    }

    /** The data URI read from the chosen file. */
    method SetPoster(uri: string)
      modifies this
      ensures posterUri == Some(uri)
      ensures name == old(name) && description == old(description) && category == old(category)
    {
      posterUri := Some(uri);
    }

    /**
     * `handleSubmit`: with an empty name or description nothing happens; otherwise
     * the new club is handed over, the dialog is closed, and name, description
     * and poster are cleared while the category stays selected.
     */
    method Submit() returns (effects: seq<FormEffect>)
      requires Valid()
      modifies this
      ensures Valid()
      ensures forall e :: e in effects && e.Created? ==> e.draft.category != Other
      ensures old(name) == "" || old(description) == "" ==>
        effects == [] &&
        name == old(name) && description == old(description) &&
        category == old(category) && posterUri == old(posterUri)
      ensures old(name) != "" && old(description) != "" ==>
        effects == [Created(NewClub(old(name), old(description), old(category), old(posterUri))), Closed] &&
        name == "" && description == "" && posterUri == None && category == old(category)
    {
      if name == "" || description == "" {
        return [];
      }
      var draft := NewClub(name, description, category, posterUri);
      effects := [Created(draft), Closed];
      name := "";
      description := "";
      posterUri := None;
    }
  }
}
