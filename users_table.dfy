/**
 * The user list page (`UsersTable` component): loading the list, the search
 * box over every field of a user, and deletion through a confirmation dialog.
 */
module UsersTable {
  import opened Wrappers
  import opened Seqs
  import opened Text

  /**
   * A user record as the search sees it: its `_id` and the `String(...)` of
   * each of its other field values.
   */
  datatype User = User(id: string, others: seq<string>)

  /** `Object.values(user).map(String)`: the `_id` and the other values. */
  function FieldStrings(u: User): seq<string> {
    [u.id] + u.others
  }

  /** How the list fetch settled: `data.data` when it is an array (`None` when it is not), or a failure. */
  datatype UsersFetch = UsersLoaded(data: Option<seq<User>>) | UsersFailed

  /** The list a fetch outcome yields: `data.data` if it is an array, else []; a failure yields []. */
  function NormalizeUsers(o: UsersFetch): (r: seq<User>)
    ensures o.UsersLoaded? && o.data.Some? ==> r == o.data.value
    ensures !(o.UsersLoaded? && o.data.Some?) ==> r == []
  {
    match o
    case UsersFailed => []
    case UsersLoaded(data) => data.GetOr([])
  }

  /** `values.some((v) => v.toLowerCase().includes(q))`. */
  predicate SomeIncludes(values: seq<string>, q: string) {
    values != [] && (Includes(Lower(values[0]), q) || SomeIncludes(values[1..], q))
  }

  lemma {:induction false} SomeIncludesIff(values: seq<string>, q: string)
    ensures SomeIncludes(values, q) <==> exists i :: 0 <= i < |values| && Includes(Lower(values[i]), q)
  {
    if values != [] {
      SomeIncludesIff(values[1..], q);
      if SomeIncludes(values[1..], q) {
        var i :| 0 <= i < |values[1..]| && Includes(Lower(values[1..][i]), q);
        assert values[i + 1] == values[1..][i];
      }
      if exists i :: 0 <= i < |values| && Includes(Lower(values[i]), q) {
        var i :| 0 <= i < |values| && Includes(Lower(values[i]), q);
        if i > 0 {
          assert values[1..][i - 1] == values[i];
        }
      }
    }
  }

  /** Some field of the user, lower-cased, contains the lower-cased search. */
  predicate UserMatches(u: User, search: string) {
    SomeIncludes(FieldStrings(u), Lower(search))
  }

  /** The callback of the search filter. */
  function UserMatcher(search: string): User -> bool {
    u => UserMatches(u, search)
  }

  /**
   * The search effect: the users some of whose field strings contain the
   * search, ignoring ASCII case, in list order.
   */
  function SearchUsers(users: seq<User>, search: string): (r: seq<User>)
    ensures forall u :: u in r <==>
      (u in users && exists i :: 0 <= i < |FieldStrings(u)| && Includes(Lower(FieldStrings(u)[i]), Lower(search)))
    ensures IsSubsequence(r, users)
  {
    FilterIsSubsequence(users, UserMatcher(search));
    forall u ensures u in Filter(users, UserMatcher(search)) <==> u in users && UserMatches(u, search) {
      FilterMembership(users, UserMatcher(search), u);
    }
    forall u ensures UserMatches(u, search) <==>
      exists i :: 0 <= i < |FieldStrings(u)| && Includes(Lower(FieldStrings(u)[i]), Lower(search)) {
      SomeIncludesIff(FieldStrings(u), Lower(search));
    }
    Filter(users, UserMatcher(search))
  }

  /** An empty search keeps every user. */
  lemma EmptySearchKeepsAll(users: seq<User>)
    ensures SearchUsers(users, "") == users
  {
    forall i | 0 <= i < |users| ensures UserMatcher("")(users[i]) {
      IncludesEmpty(Lower(users[i].id));
    }
    FilterKeepsAll(users, UserMatcher(""));
  }

  /** The callback `(user) => user._id !== id`. */
  function UserIdDiffers(id: string): User -> bool {
    (u: User) => u.id != id
  }

  /** The list without the users whose `_id` is `id`, in order. */
  function RemoveUser(users: seq<User>, id: string): seq<User> {
    Filter(users, UserIdDiffers(id))
  }

  lemma RemoveUserSpec(users: seq<User>, id: string)
    ensures forall u :: u in RemoveUser(users, id) <==> u in users && u.id != id
    ensures IsSubsequence(RemoveUser(users, id), users)
  {
    FilterIsSubsequence(users, UserIdDiffers(id));
    forall u ensures u in RemoveUser(users, id) <==> u in users && u.id != id {
      FilterMembership(users, UserIdDiffers(id), u);
    }
  }

  /**
   * Removing a user from the search result is searching the list with that
   * user removed: deleting from both lists keeps the shown list equal to the
   * search over the remaining users.
   */
  lemma RemoveUserCommutesWithSearch(users: seq<User>, search: string, id: string)
    ensures RemoveUser(SearchUsers(users, search), id) == SearchUsers(RemoveUser(users, id), search)
  {
    FilterCommutes(users, UserMatcher(search), UserIdDiffers(id));
  }

  class UsersTable {
    var users: seq<User>
    var filteredUsers: seq<User>
    var search: string
    var loading: bool
    var isModalOpen: bool
    var userToDelete: Option<string>

    /**
     * The shown list is always the search over the loaded list (the search
     * effect runs after every change of either), and the search box, which
     * is not rendered while loading, is empty until the list has loaded.
     */
    ghost predicate Valid()
      reads this
    {
      filteredUsers == SearchUsers(users, search) && (loading ==> search == "")
    }

    constructor ()
      ensures Valid() && users == [] && filteredUsers == [] && search == "" && loading
      ensures !isModalOpen && userToDelete == None
    {
      users, filteredUsers, search, loading := [], [], "", true;
      isModalOpen, userToDelete := false, None;
    }

    /** The list fetch settles: both lists become the normalised list and loading ends. */
    method FinishFetch(outcome: UsersFetch)
      requires Valid()
      modifies this
      ensures Valid() && !loading
      ensures users == NormalizeUsers(outcome)
      ensures old(loading) ==> filteredUsers == users
      ensures search == old(search) && isModalOpen == old(isModalOpen) && userToDelete == old(userToDelete)
    {
      var data := NormalizeUsers(outcome);
      users, filteredUsers := data, data;
      // `users` changed: the search effect runs.
      filteredUsers := SearchUsers(users, search);
      if old(loading) {
        EmptySearchKeepsAll(users);
      }
      loading := false;
    }

    /** The search box (rendered once loaded), followed by the search effect. */
    method SetSearch(value: string)
      requires Valid() && !loading
      modifies this
      ensures Valid() && search == value && filteredUsers == SearchUsers(users, value)
      ensures users == old(users) && !loading && isModalOpen == old(isModalOpen) && userToDelete == old(userToDelete)
    {
      search := value;
      filteredUsers := SearchUsers(users, search);
    }

    /**
     * `handleDeleteUser`: a successful delete request (`deleted`) removes the
     * users with that `_id` from both lists; a failure changes nothing.
     */
    method HandleDeleteUser(id: string, deleted: bool)
      requires Valid()
      modifies this
      ensures Valid()
      ensures deleted ==> users == RemoveUser(old(users), id) && filteredUsers == RemoveUser(old(filteredUsers), id)
      ensures !deleted ==> users == old(users) && filteredUsers == old(filteredUsers)
      ensures search == old(search) && loading == old(loading)
      ensures isModalOpen == old(isModalOpen) && userToDelete == old(userToDelete)
    {
      if deleted {
        RemoveUserCommutesWithSearch(users, search, id);
        users := RemoveUser(users, id);
        filteredUsers := RemoveUser(filteredUsers, id);
      }
    }

    /** `openModal`: records the user to delete and opens the dialog. */
    method OpenModal(id: string)
      requires Valid()
      modifies this
      ensures Valid() && userToDelete == Some(id) && isModalOpen
      ensures users == old(users) && filteredUsers == old(filteredUsers) && search == old(search) && loading == old(loading)
    {
      userToDelete := Some(id);
      isModalOpen := true;
    }

    /** `closeModal`: closes the dialog and forgets the user. */
    method CloseModal()
      requires Valid()
      modifies this
      ensures Valid() && userToDelete == None && !isModalOpen
      ensures users == old(users) && filteredUsers == old(filteredUsers) && search == old(search) && loading == old(loading)
    {
      isModalOpen := false;
      userToDelete := None;
    }

    /**
     * `confirmDelete`: with no recorded user, or an empty id, nothing happens.
     * Otherwise the delete for that id is sent (`requested`), settling as
     * `deleted` says, and the dialog ends closed with no recorded user.
     */
    method ConfirmDelete(deleted: bool) returns (requested: bool)
      requires Valid()
      modifies this
      ensures Valid()
      ensures requested <==> Truthy(old(userToDelete))
      ensures !requested ==>
        users == old(users) && filteredUsers == old(filteredUsers) &&
        isModalOpen == old(isModalOpen) && userToDelete == old(userToDelete)
      ensures requested ==>
        users == (if deleted then RemoveUser(old(users), old(userToDelete).value) else old(users)) &&
        filteredUsers == (if deleted then RemoveUser(old(filteredUsers), old(userToDelete).value) else old(filteredUsers)) &&
        !isModalOpen && userToDelete == None
      ensures search == old(search) && loading == old(loading)
    {
      if !Truthy(userToDelete) {
        return false;
      }
      HandleDeleteUser(userToDelete.value, deleted);
      CloseModal();
      requested := true;
    }
  }
}
