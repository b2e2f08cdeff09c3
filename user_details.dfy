/**
 * The user details page (`UserProfile` component in `UserDetails.jsx`):
 * fetching one user, the render chain and the display fallbacks.
 */
module UserDetails {
  import opened Wrappers

  datatype Education = Education(degree: string, institution: string, startDate: string, endDate: Option<string>)
  datatype Experience = Experience(title: string, company: string, startDate: string, endDate: string, description: string)

  /** The nested `profile` of a user. */
  datatype Profile = Profile(profilePhoto: Option<string>, education: seq<Education>, experience: seq<Experience>)

  /** A user record; `profile` may be absent. */
  datatype UserRecord = UserRecord(name: string, email: string, status: string, isVerified: bool, profile: Option<Profile>)

  /** How the fetch settled: the body's `data` array (`None` when it is missing), or a failure. */
  datatype UserFetch = UserLoaded(rows: Option<seq<UserRecord>>) | UserFailed

  const UserErrorMessage: string := "Error fetching user details."
  const PhotoPlaceholder: string := "https://via.placeholder.com/150"
  const PresentText: string := "Present"
  const NoEducationText: string := "No education information available"
  const NoExperienceText: string := "No experience information available"

  /** One education entry as shown: degree, institution, start date and end date (or "Present"). */
  datatype EducationLine = EducationLine(degree: string, institution: string, startDate: string, endDate: string)

  /** A list section: its entries, or the fallback text when there are none. */
  datatype Section<T> = Entries(items: seq<T>) | Fallback(text: string)

  /** What the content shows for a user. */
  datatype UserCard = UserCard(
    photo: string,
    name: string,
    verified: string,
    education: Section<EducationLine>,
    experience: Section<Experience>)

  /** `education.endDate || "Present"`. */
  function ShowEducation(e: Education): (l: EducationLine)
    ensures l.endDate != ""
    ensures e.endDate.Some? && e.endDate.value != "" ==> l.endDate == e.endDate.value
    ensures e.endDate.None? || e.endDate.value == "" ==> l.endDate == PresentText
    ensures l.(endDate := "") == EducationLine(e.degree, e.institution, e.startDate, "")
  {
    EducationLine(e.degree, e.institution, e.startDate, OrElse(e.endDate, PresentText))
  }

  function ShowEducations(es: seq<Education>): (r: seq<EducationLine>)
    ensures |r| == |es|
    ensures forall i :: 0 <= i < |es| ==> r[i] == ShowEducation(es[i])
  {
    if es == [] then [] else [ShowEducation(es[0])] + ShowEducations(es[1..])
  }

  /**
   * The content for a user: the profile photo or the placeholder, "Yes" or
   * "No" for `isVerified`, and each list, or its fallback text when it is
   * empty or there is no profile.
   */
  function Card(u: UserRecord): (c: UserCard)
    ensures c.photo != ""
    ensures u.profile.Some? && u.profile.value.profilePhoto.Some? && u.profile.value.profilePhoto.value != "" ==>
      c.photo == u.profile.value.profilePhoto.value
    ensures !(u.profile.Some? && u.profile.value.profilePhoto.Some? && u.profile.value.profilePhoto.value != "") ==>
      c.photo == PhotoPlaceholder
    ensures c.verified == (if u.isVerified then "Yes" else "No")
    ensures c.education.Fallback? <==> u.profile.None? || u.profile.value.education == []
    ensures c.education.Fallback? ==> c.education.text == NoEducationText
    ensures c.education.Entries? ==>
      (|c.education.items| == |u.profile.value.education| &&
       forall i :: 0 <= i < |c.education.items| ==> c.education.items[i] == ShowEducation(u.profile.value.education[i]))
    ensures c.experience.Fallback? <==> u.profile.None? || u.profile.value.experience == []
    ensures c.experience.Fallback? ==> c.experience.text == NoExperienceText
    ensures c.experience.Entries? ==> c.experience.items == u.profile.value.experience
  {
    var photo := if u.profile.Some? then OrElse(u.profile.value.profilePhoto, PhotoPlaceholder) else PhotoPlaceholder;
    var education := if u.profile.Some? && u.profile.value.education != []
      then Entries(ShowEducations(u.profile.value.education)) else Fallback(NoEducationText);
    var experience := if u.profile.Some? && u.profile.value.experience != []
      then Entries(u.profile.value.experience) else Fallback(NoExperienceText);
    UserCard(photo, u.name, if u.isVerified then "Yes" else "No", education, experience)
  }

  /** What the page renders, in priority order; `Content(None)` is the heading alone. */
  datatype UserView = Loading | ErrorText(message: string) | Content(card: Option<UserCard>)

  class UserDetails {
    const id: string
    var user: Option<UserRecord>
    var loading: bool
    var error: Option<string>

    /** The render chain: loading, then a truthy error, then the content (a card only with a user). */
    function View(): (v: UserView)
      reads this
      ensures v.Loading? <==> loading
      ensures v.ErrorText? <==> !loading && Truthy(error)
      ensures v.ErrorText? ==> v.message == error.value
      ensures v.Content? ==> (v.card.Some? <==> user.Some?)
      ensures v.Content? && user.Some? ==> v.card == Some(Card(user.value))
    {
      if loading then Loading
      else if Truthy(error) then ErrorText(error.value)
      else Content(if user.Some? then Some(Card(user.value)) else None)
    }

    constructor (id: string)
      ensures this.id == id && user == None && loading && error == None
      ensures View() == Loading
    {
      this.id := id;
      user, loading, error := None, true, None;
    }

    /**
     * `fetchUser` settles: the first row of `data` becomes the user (none
     * when `data` is empty); a failure, or a body without `data`, sets the
     * error and keeps the user. Loading ends either way.
     */
    method FinishFetch(outcome: UserFetch)
      modifies this
      ensures !loading
      ensures outcome.UserLoaded? && outcome.rows.Some? ==>
        error == old(error) &&
        user == (if outcome.rows.value == [] then None else Some(outcome.rows.value[0]))
      ensures outcome.UserLoaded? && outcome.rows.Some? && old(error).None? ==>
        View() == Content(if outcome.rows.value == [] then None else Some(Card(outcome.rows.value[0])))
      ensures !(outcome.UserLoaded? && outcome.rows.Some?) ==>
        user == old(user) && error == Some(UserErrorMessage) && View() == ErrorText(UserErrorMessage)
    {
      if outcome.UserLoaded? && outcome.rows.Some? {
        var rows := outcome.rows.value;
        // `data[0]` of an empty array is undefined.
        user := if rows == [] then None else Some(rows[0]);
      } else {
        error := Some(UserErrorMessage);
      }
      loading := false;
    }
  }
}
