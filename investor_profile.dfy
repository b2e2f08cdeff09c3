/**
 * The investor profile page (`InvestorProfile` component): fetching one
 * investor, the render chain, the profile card with its fallbacks, and the
 * edit button.
 */
module InvestorProfile {
  import opened Wrappers
  import Session

  /** A portfolio company as the card lists it. */
  datatype CompanyEntry = CompanyEntry(name: Option<string>, logo: Option<string>, link: Option<string>)

  /** The `investor` record of the response; `None` is a missing field. */
  datatype InvestorRecord = InvestorRecord(
    name: Option<string>,
    image: Option<string>,
    description: Option<string>,
    geography: Option<string>,
    headquarter: Option<string>,
    investmentStages: Option<string>,
    investorType: Option<string>,
    checkSize: Option<string>,
    sectorInterested: Option<seq<string>>,
    portfolioCompanies: Option<seq<CompanyEntry>>,
    contactLink: Option<string>,
    website: Option<string>)

  /** The response body: its own top-level `name` (if any) and the `investor` record. */
  datatype ProfileBody = ProfileBody(name: Option<string>, investor: InvestorRecord)

  /** How the fetch settled: a body (`None` for an empty or null one), or a failure. */
  datatype ProfileFetch = ProfileLoaded(body: Option<ProfileBody>) | ProfileFailed

  const ProfileErrorMessage: string := "Failed to load investor details. Please try again."
  const NotSpecified: string := "Not specified"

  /** What the profile card shows. */
  datatype ProfileCard = ProfileCard(
    heading: Option<string>,
    image: Option<string>,
    description: Option<string>,
    geography: Option<string>,
    headquarter: Option<string>,
    investmentStages: string,
    investorType: Option<string>,
    checkSize: string,
    sectors: seq<string>,
    companies: seq<CompanyEntry>,  // the "Portfolio Companies" section is shown when this is non-empty
    contactLink: Option<string>,
    website: Option<string>)

  /** The card with a given heading: every other part comes from the `investor` record. */
  function CardWithHeading(heading: Option<string>, r: InvestorRecord): ProfileCard {
    ProfileCard(
      heading, r.image, r.description, r.geography, r.headquarter,
      OrElse(r.investmentStages, NotSpecified), r.investorType, OrElse(r.checkSize, NotSpecified),
      r.sectorInterested.GetOr([]), r.portfolioCompanies.GetOr([]),
      r.contactLink, r.website)
  }

  /** The card as the page builds it: the heading is the body's top-level `name`. */
  function CardAsWritten(b: ProfileBody): ProfileCard {
    CardWithHeading(b.name, b.investor)
  }

  /** An investor whose name is in its record but not at the top level of the body gets no heading. */
  lemma CardAsWrittenLosesName()
    ensures var rec := InvestorRecord(Some("Acme"), None, None, None, None, None, None, None, None, None, None, None);
      var b := ProfileBody(None, rec);
      CardAsWritten(b).heading == None && Card(b).heading == Some("Acme")
  {
  }

  /**
   * The card, with the heading taken from the `investor` record like every
   * other part: a missing investment stage or check size shows "Not
   * specified", a missing sector or company list shows none.
   */
  function Card(b: ProfileBody): (c: ProfileCard)
    ensures c.heading == b.investor.name
    ensures c.investmentStages != "" && c.checkSize != ""
    ensures b.investor.investmentStages.None? ==> c.investmentStages == NotSpecified
    ensures b.investor.checkSize.None? ==> c.checkSize == NotSpecified
    ensures b.investor.investmentStages.Some? && b.investor.investmentStages.value != "" ==>
      c.investmentStages == b.investor.investmentStages.value
    ensures b.investor.checkSize.Some? && b.investor.checkSize.value != "" ==> c.checkSize == b.investor.checkSize.value
    ensures b.investor.sectorInterested.None? ==> c.sectors == []
    ensures c.companies != [] <==> b.investor.portfolioCompanies.Some? && b.investor.portfolioCompanies.value != []
    ensures c.(heading := CardAsWritten(b).heading) == CardAsWritten(b)
  {
    CardWithHeading(b.investor.name, b.investor)
  }

  /** What the page renders, in priority order. */
  datatype ProfileView = Loader | ErrorText(message: string) | NoData | Profile(card: ProfileCard)

  class InvestorProfile {
    const id: string
    var investor: Option<ProfileBody>
    var loading: bool
    var error: string
    var navigatedTo: Option<string>

    /** The render chain: loading, then a non-empty error, then "No data found." without a body, then the card. */
    function View(): (v: ProfileView)
      reads this
      ensures v.Loader? <==> loading
      ensures v.ErrorText? <==> !loading && error != ""
      ensures v.ErrorText? ==> v.message == error
      ensures v.NoData? <==> !loading && error == "" && investor.None?
      ensures v.Profile? ==> investor.Some? && v.card == Card(investor.value)
    {
      if loading then Loader
      else if error != "" then ErrorText(error)
      else if investor.None? then NoData
      else Profile(Card(investor.value))
    }

    constructor (id: string)
      ensures this.id == id && investor == None && loading && error == "" && navigatedTo == None
      ensures View() == Loader
    {
      this.id := id;
      investor, loading, error, navigatedTo := None, true, "", None;
    }

    /**
     * `fetchInvestor` settles: a response stores its body and clears the
     * error; a failure sets the fixed message and keeps the stored body.
     * Loading ends either way.
     */
    method FinishFetch(outcome: ProfileFetch)
      modifies this
      ensures !loading && navigatedTo == old(navigatedTo)
      ensures outcome.ProfileLoaded? ==> investor == outcome.body && error == ""
      ensures outcome.ProfileFailed? ==>
        investor == old(investor) && error == ProfileErrorMessage && View() == ErrorText(ProfileErrorMessage)
      ensures outcome.ProfileLoaded? && outcome.body.None? ==> View() == NoData
      ensures outcome.ProfileLoaded? && outcome.body.Some? ==> View() == Profile(Card(outcome.body.value))
    {
      if outcome.ProfileLoaded? {
        investor := outcome.body;
        error := "";
      } else {
        error := ProfileErrorMessage;
      }
      loading := false;
    }

    /** `handleEditClick`: opens the edit page of this investor. */
    method HandleEditClick()
      modifies this
      ensures navigatedTo == Some(Session.EditInvestorPath(id))
      ensures investor == old(investor) && loading == old(loading) && error == old(error)
    {
      navigatedTo := Some(Session.EditInvestorPath(id));
    }
  }
}
