/**
 * The dashboard (`Dashboard` component): three counts fetched together, and
 * what the page renders while loading, after a failure and after a success.
 */
module Dashboard {
  import opened Wrappers

  /**
   * How the three count requests settled together: each response's `count`
   * (absent or present), or a failure of any one of them.
   */
  datatype CountsOutcome =
    | CountsLoaded(users: Option<int>, premium: Option<int>, investors: Option<int>)
    | CountsFailed

  const DashboardErrorMessage: string := "Failed to load dashboard data. Please try again."

  /** `count || 0`: a missing or zero count is shown as 0. */
  function CountOrZero(count: Option<int>): (r: int)
    ensures count.Some? ==> r == count.value
    ensures count.None? ==> r == 0
  {
    count.GetOr(0)
  }

  /** What the page renders, in priority order: the loader, the error text, the counts. */
  datatype DashboardView =
    | Loader
    | ErrorText(message: string)
    | Counts(totalUsers: Option<int>, premiumUsers: Option<int>, investorCount: Option<int>)

  class Dashboard {
    var totalUsers: Option<int>
    var premiumUsers: Option<int>
    var investorCount: Option<int>
    var loading: bool
    var error: string

    /** The render chain: loading first, then a non-empty error, then the counts. */
    function View(): (v: DashboardView)
      reads this
      ensures v.Loader? <==> loading
      ensures v.ErrorText? <==> !loading && error != ""
      ensures v.ErrorText? ==> v.message == error
      ensures v.Counts? ==> v == Counts(totalUsers, premiumUsers, investorCount)
    {
      if loading then Loader
      else if error != "" then ErrorText(error)
      else Counts(totalUsers, premiumUsers, investorCount)
    }

    /** The page mounts: no counts, loading, no error. */
    constructor ()
      ensures totalUsers == None && premiumUsers == None && investorCount == None
      ensures loading && error == ""
      ensures View() == Loader
    {
      totalUsers, premiumUsers, investorCount := None, None, None;
      loading, error := true, "";
    }

    /**
     * `fetchCounts` settles: on success every count is set (0 for a missing
     * one) and the error cleared; on failure the error is set and the counts
     * keep their values. Loading ends either way, so the page shows either
     * the error text or the counts.
     */
    method FinishFetch(outcome: CountsOutcome)
      modifies this
      ensures !loading
      ensures outcome.CountsLoaded? ==>
        totalUsers == Some(CountOrZero(outcome.users)) &&
        premiumUsers == Some(CountOrZero(outcome.premium)) &&
        investorCount == Some(CountOrZero(outcome.investors)) &&
        error == "" && View().Counts?
      ensures outcome.CountsFailed? ==>
        totalUsers == old(totalUsers) && premiumUsers == old(premiumUsers) &&
        investorCount == old(investorCount) &&
        error == DashboardErrorMessage && View() == ErrorText(DashboardErrorMessage)
    {
      if outcome.CountsLoaded? {
        totalUsers := Some(CountOrZero(outcome.users));
        premiumUsers := Some(CountOrZero(outcome.premium));
        investorCount := Some(CountOrZero(outcome.investors));
        error := "";
      } else {
        error := DashboardErrorMessage;
      }
      loading := false;
    }
  }
}
