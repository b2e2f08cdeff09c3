/**
 * The investor list page (`InvestorsTable` component): loading the list, the
 * case-insensitive search, and deletion guarded by typing the investor's
 * profile name.
 */
module InvestorsTable {
  import opened Wrappers
  import opened Seqs
  import opened Text
  import Session

  /** A row of the list: its `_id` and the four searchable text columns. */
  datatype Investor = Investor(
    id: string,
    name: string,
    geography: string,
    investmentStages: string,
    investorType: string)

  /** The body of the list response: a bare array, or an object whose `investors` field may be absent. */
  datatype InvestorsPayload = ArrayBody(items: seq<Investor>) | ObjectBody(investors: Option<seq<Investor>>)

  /** How the list fetch settled. */
  datatype InvestorsFetch = InvestorsLoaded(body: InvestorsPayload) | InvestorsFailed

  /** The list a fetch outcome yields: the array itself, else its `investors` field, else []; a failure yields []. */
  function NormalizeInvestors(o: InvestorsFetch): (r: seq<Investor>)
    ensures o.InvestorsFailed? ==> r == []
    ensures o.InvestorsLoaded? && o.body.ArrayBody? ==> r == o.body.items
    ensures o.InvestorsLoaded? && o.body.ObjectBody? ==> r == o.body.investors.GetOr([])
  {
    match o
    case InvestorsFailed => []
    case InvestorsLoaded(ArrayBody(items)) => items
    case InvestorsLoaded(ObjectBody(investors)) => investors.GetOr([])
  }

  /** The lower-cased query occurs in the lower-cased name, geography, investment stages or investor type. */
  predicate Matches(inv: Investor, query: string) {
    var q := Lower(query);
    Includes(Lower(inv.name), q) || Includes(Lower(inv.geography), q) ||
    Includes(Lower(inv.investmentStages), q) || Includes(Lower(inv.investorType), q)
  }

  /** The callback of the search filter. */
  function Matcher(query: string): Investor -> bool {
    inv => Matches(inv, query)
  }

  /**
   * `filteredInvestors`: the investors matching the query, in their list
   * order; exactly the matching ones are kept.
   */
  function FilteredInvestors(investors: seq<Investor>, query: string): (r: seq<Investor>)
    ensures forall x :: x in r <==> x in investors && Matches(x, query)
    ensures IsSubsequence(r, investors)
  {
    FilterIsSubsequence(investors, Matcher(query));
    assert forall x :: x in Filter(investors, Matcher(query)) <==> x in investors && Matches(x, query) by {
      forall x ensures x in Filter(investors, Matcher(query)) <==> x in investors && Matches(x, query) {
        FilterMembership(investors, Matcher(query), x);
      }
    }
    Filter(investors, Matcher(query))
  }

  /** An empty query shows every investor. */
  lemma EmptyQueryShowsAll(investors: seq<Investor>)
    ensures FilteredInvestors(investors, "") == investors
  {
    forall i | 0 <= i < |investors| ensures Matcher("")(investors[i]) {
      IncludesEmpty(Lower(investors[i].name));
    }
    FilterKeepsAll(investors, Matcher(""));
  }

  /** The search ignores ASCII case in the query. */
  lemma QueryCaseIgnored(investors: seq<Investor>, query: string)
    ensures FilteredInvestors(investors, Lower(query)) == FilteredInvestors(investors, query)
  {
    LowerIdempotent(query);
    FilterSameVerdicts(investors, Matcher(Lower(query)), Matcher(query));
  }

  /** The callback `(inv) => inv._id !== id`. */
  function IdDiffers(id: string): Investor -> bool {
    (inv: Investor) => inv.id != id
  }

  /** The list without the investors whose `_id` is `id`, in order. */
  function RemoveById(investors: seq<Investor>, id: string): seq<Investor> {
    Filter(investors, IdDiffers(id))
  }

  lemma RemoveByIdSpec(investors: seq<Investor>, id: string)
    ensures forall x :: x in RemoveById(investors, id) <==> x in investors && x.id != id
    ensures IsSubsequence(RemoveById(investors, id), investors)
    ensures forall x: Investor :: x.id != id ==> multiset(RemoveById(investors, id))[x] == multiset(investors)[x]
  {
    FilterIsSubsequence(investors, IdDiffers(id));
    forall x ensures x in RemoveById(investors, id) <==> x in investors && x.id != id {
      FilterMembership(investors, IdDiffers(id), x);
    }
    forall x: Investor | x.id != id ensures multiset(RemoveById(investors, id))[x] == multiset(investors)[x] {
      FilterCount(investors, IdDiffers(id), x);
    }
  }

  class InvestorsTable {
    var investors: seq<Investor>
    var loading: bool
    var confirmModal: bool
    var currentInvestor: Option<Investor>
    var profileName: string
    var searchQuery: string
    var navigatedTo: Option<string>

    /** The confirmation dialog is only open with an investor recorded (the dialog reads its name). */
    ghost predicate Valid()
      reads this
    {
      confirmModal ==> currentInvestor.Some?
    }

    /** The rows shown: the investors matching the search box. */
    function Shown(): seq<Investor>
      reads this
    {
      FilteredInvestors(investors, searchQuery)
    }

    constructor ()
      ensures Valid() && investors == [] && loading && !confirmModal && currentInvestor == None
      ensures profileName == "" && searchQuery == "" && navigatedTo == None
    {
      investors, loading, confirmModal, currentInvestor := [], true, false, None;
      profileName, searchQuery, navigatedTo := "", "", None;
    }

    /** The list fetch settles: the normalised list replaces `investors` and loading ends. */
    method FinishFetch(outcome: InvestorsFetch)
      requires Valid()
      modifies this
      ensures Valid() && investors == NormalizeInvestors(outcome) && !loading
      ensures confirmModal == old(confirmModal) && currentInvestor == old(currentInvestor)
      ensures profileName == old(profileName) && searchQuery == old(searchQuery) && navigatedTo == old(navigatedTo)
    {
      investors := NormalizeInvestors(outcome);
      loading := false;
    }

    /** `handleDelete`: records the investor and opens the confirmation dialog. */
    method HandleDelete(inv: Investor)
      requires Valid()
      modifies this
      ensures Valid() && currentInvestor == Some(inv) && confirmModal
      ensures investors == old(investors) && loading == old(loading) && profileName == old(profileName)
      ensures searchQuery == old(searchQuery) && navigatedTo == old(navigatedTo)
    {
      currentInvestor := Some(inv);
      confirmModal := true;
    }

    /** The dialog's text input. */
    method SetProfileName(value: string)
      requires Valid()
      modifies this
      ensures Valid() && profileName == value
      ensures investors == old(investors) && loading == old(loading) && confirmModal == old(confirmModal)
      ensures currentInvestor == old(currentInvestor) && searchQuery == old(searchQuery) && navigatedTo == old(navigatedTo)
    {
      profileName := value;
    }

    /** The search box. */
    method SetSearchQuery(query: string)
      requires Valid()
      modifies this
      ensures Valid() && searchQuery == query && Shown() == FilteredInvestors(investors, query)
      ensures investors == old(investors) && loading == old(loading) && confirmModal == old(confirmModal)
      ensures currentInvestor == old(currentInvestor) && profileName == old(profileName) && navigatedTo == old(navigatedTo)
    {
      searchQuery := query;
    }

    /** The dialog's Cancel button: closes the dialog, keeping the recorded investor and the typed name. */
    method Cancel()
      requires Valid()
      modifies this
      ensures Valid() && !confirmModal
      ensures investors == old(investors) && loading == old(loading) && currentInvestor == old(currentInvestor)
      ensures profileName == old(profileName) && searchQuery == old(searchQuery) && navigatedTo == old(navigatedTo)
    {
      confirmModal := false;
    }

    /**
     * `deleteInvestor`, the dialog's Delete button. Only when the typed name
     * equals the recorded investor's name exactly (case-sensitive) is the
     * delete request sent (`requested`); on a mismatch nothing changes. After a
     * sent request, whether it succeeded (`deleted`) or not, the dialog is
     * closed, the recorded investor cleared and the typed name reset; only a
     * success removes the investors with that `_id`.
     */
    method DeleteInvestor(deleted: bool) returns (requested: bool)
      requires Valid() && confirmModal
      modifies this
      ensures Valid()
      ensures requested <==> old(profileName) == old(currentInvestor).value.name
      ensures !requested ==>
        investors == old(investors) && confirmModal && currentInvestor == old(currentInvestor) &&
        profileName == old(profileName)
      ensures requested ==>
        investors == (if deleted then RemoveById(old(investors), old(currentInvestor).value.id) else old(investors)) &&
        !confirmModal && currentInvestor == None && profileName == ""
      ensures loading == old(loading) && searchQuery == old(searchQuery) && navigatedTo == old(navigatedTo)
    {
      var inv := currentInvestor.value;
      if profileName != inv.name {
        return false;
      }
      if deleted {
        investors := RemoveById(investors, inv.id);
      }
      confirmModal, currentInvestor, profileName := false, None, "";
      requested := true;
    }

    /** `handleEdit`: opens the investor's edit page. */
    method HandleEdit(inv: Investor)
      requires Valid()
      modifies this
      ensures Valid() && navigatedTo == Some(Session.EditInvestorPath(inv.id))
      ensures investors == old(investors) && loading == old(loading) && confirmModal == old(confirmModal)
      ensures currentInvestor == old(currentInvestor) && profileName == old(profileName) && searchQuery == old(searchQuery)
    {
      navigatedTo := Some(Session.EditInvestorPath(inv.id));
    }

    /** `handleViewProfile`: opens the investor's profile page. */
    method HandleViewProfile(inv: Investor)
      requires Valid()
      modifies this
      ensures Valid() && navigatedTo == Some(Session.InvestorProfilePath(inv.id))
      ensures investors == old(investors) && loading == old(loading) && confirmModal == old(confirmModal)
      ensures currentInvestor == old(currentInvestor) && profileName == old(profileName) && searchQuery == old(searchQuery)
    {
      navigatedTo := Some(Session.InvestorProfilePath(inv.id));
    }
  }
}
