/**
 * The user administration page: users narrowed by a search term and a role,
 * shown ten per page, with the page controls, the role counters and the
 * deletion dialog.
 */
module UserAdmin {
  import opened Wrappers
  import opened Lists
  import opened Text

  datatype User = User(id: int, nombre: string, apellido: string, correoElectronico: string, rol: string)

  const PageSize: nat := 10
  const AllRoles := "all"

  /** The lower-cased term occurs in the lower-cased first name, last name or e-mail. */
  predicate MatchesSearch(u: User, search: string)
  {
    || Contains(Lower(u.nombre), search)
    || Contains(Lower(u.apellido), search)
    || Contains(Lower(u.correoElectronico), search)
  }

  function Searched(search: string): User -> bool
  {
    (u: User) => MatchesSearch(u, search)
  }

  function HasRole(rol: string): User -> bool
  {
    (u: User) => u.rol == rol
  }

  /** Both filters at once; `"all"` puts no condition on the role. */
  predicate Shown(u: User, searchTerm: string, roleFilter: string)
  {
    && (Lower(searchTerm) != [] ==> MatchesSearch(u, Lower(searchTerm)))
    && (roleFilter != AllRoles ==> u.rol == roleFilter)
  }

  function ShownBy(searchTerm: string, roleFilter: string): User -> bool
  {
    (u: User) => Shown(u, searchTerm, roleFilter)
  }

  /** `filteredUsers`: the search filter, then the role filter. */
  function FilteredUsers(users: seq<User>, searchTerm: string, roleFilter: string): (r: seq<User>)
    ensures |r| <= |users| && forall i :: 0 <= i < |r| ==> r[i] in users
    ensures searchTerm == [] && roleFilter == AllRoles ==> r == users
  {
    var search := Lower(searchTerm);
    var bySearch := if search != [] then Filter(users, Searched(search)) else users;
    if roleFilter != AllRoles then Filter(bySearch, HasRole(roleFilter)) else bySearch
  }

  /**
   * The filtered list is `users` with exactly the users failing a filter taken
   * out, the rest in their order.
   */
  lemma FilteredUsersIsOneFilter(users: seq<User>, searchTerm: string, roleFilter: string)
    ensures FilteredUsers(users, searchTerm, roleFilter) == Filter(users, ShownBy(searchTerm, roleFilter))
  {
    var search := Lower(searchTerm);
    var shown := ShownBy(searchTerm, roleFilter);
    if search != [] && roleFilter != AllRoles {
      FilterFilter(users, Searched(search), HasRole(roleFilter), shown);
    } else if search != [] {
      FilterCongruent(users, Searched(search), shown);
    } else if roleFilter != AllRoles {
      FilterCongruent(users, HasRole(roleFilter), shown);
    } else {
      FilterAll(users, shown);
    }
  }

  /**
   * `Array.prototype.slice` index normalisation: a negative index counts from
   * the end, and the result is clamped to the length.
   */
  function SliceIndex(k: int, len: nat): (r: nat)
    ensures r <= len
    ensures 0 <= k <= len ==> r == k
  {
    if k < 0 then (if len + k < 0 then 0 else len + k) else if k > len then len else k
  }

  /** `s.slice(from, to)` */
  function Slice<T>(s: seq<T>, from: int, to: int): (r: seq<T>)
    ensures |r| <= |s|
  {
    var a := SliceIndex(from, |s|);
    var b := SliceIndex(to, |s|);
    if a < b then s[a..b] else []
  }

  /** `paginatedUsers`: the ten users from position `(page - 1) * 10`. */
  function Paginated(filtered: seq<User>, page: int): (r: seq<User>)
    ensures |r| <= PageSize
  {
    var start := (page - 1) * PageSize;
    Slice(filtered, start, start + PageSize)
  }

  /** `totalPages`: `Math.ceil(n / 10)`. */
  function TotalPages(n: nat): (r: nat)
    ensures n == 0 ==> r == 0
    ensures n > 0 ==> (r - 1) * PageSize < n <= r * PageSize
  {
    (n + PageSize - 1) / PageSize
  }

  /**
   * For a page from 1, the page holds the users from `(page - 1) * 10` on, up
   * to ten; the user at position `k` is on page `k / 10 + 1` at place `k % 10`.
   */
  lemma PageContents(filtered: seq<User>, page: int, k: int)
    requires page >= 1
    requires 0 <= k < |filtered| && k / PageSize + 1 == page
    ensures (page - 1) * PageSize <= k
    ensures |Paginated(filtered, page)| > k % PageSize
    ensures Paginated(filtered, page)[k % PageSize] == filtered[k]
  {
    var start := (page - 1) * PageSize;
    assert start == k - k % PageSize;
  }

  /** Every page from 1 to the page count shows at least one user; past it, none. */
  lemma PagesInRange(filtered: seq<User>, page: int)
    requires page >= 1
    ensures page <= TotalPages(|filtered|) <==> Paginated(filtered, page) != []
  {
    var start := (page - 1) * PageSize;
    if page <= TotalPages(|filtered|) {
      assert start < |filtered|;
    }
  }

  /** `getRoleBadgeClass`: by the upper-cased role; a missing role gets the neutral badge. */
  function RoleBadgeClass(rol: Option<string>): (r: string)
    ensures rol.None? ==> r == "bg-gray-100 text-gray-800"
    ensures rol.Some? && Upper(rol.value) == "ADMIN" ==> r == "bg-purple-100 text-purple-800"
    ensures rol.Some? && Upper(rol.value) == "USER" ==> r == "bg-blue-100 text-blue-800"
    ensures rol.Some? && Upper(rol.value) != "ADMIN" && Upper(rol.value) != "USER" ==> r == "bg-gray-100 text-gray-800"
  {
    if rol.None? then "bg-gray-100 text-gray-800"
    else if Upper(rol.value) == "ADMIN" then "bg-purple-100 text-purple-800"
    else if Upper(rol.value) == "USER" then "bg-blue-100 text-blue-800"
    else "bg-gray-100 text-gray-800"
  }

  /** The badge does not depend on the role's letter case. */
  lemma RoleBadgeIgnoresCase(rol: string)
    ensures RoleBadgeClass(Some(Upper(rol))) == RoleBadgeClass(Some(rol))
  {
    UpperIdempotent(rol);
  }

  /** `adminCount` and `userCount` never exceed the number of users together. */
  lemma RoleCountsBounded(users: seq<User>)
    ensures Count(users, HasRole("ADMIN")) + Count(users, HasRole("USER")) <= |users|
  {
    CountDisjoint(users, HasRole("ADMIN"), HasRole("USER"));
  }

  /** The page state. */
  class UserAdminPage {
    var users: seq<User>
    var searchTerm: string
    var selectedRoleFilter: string
    var currentPage: int
    var selectedUser: Option<User>
    var showDeleteModal: bool

    /** The current page is never below 1. */
    ghost predicate Valid()
      reads this
    {
      currentPage >= 1
    }

    constructor ()
      ensures Valid() && users == [] && searchTerm == [] && selectedRoleFilter == AllRoles && currentPage == 1
      ensures selectedUser.None? && !showDeleteModal
    {
      users := [];
      searchTerm := [];
      selectedRoleFilter := AllRoles;
      currentPage := 1;
      selectedUser := None;
      showDeleteModal := false;
    }

    function Filtered(): seq<User>
      reads this
    {
      FilteredUsers(users, searchTerm, selectedRoleFilter)
    }

    function PaginatedUsers(): (r: seq<User>)
      reads this
      ensures |r| <= PageSize
    {
      Paginated(Filtered(), currentPage)
    }

    function AdminCount(): (n: nat)
      reads this
      ensures n <= |users|
    {
      Count(users, HasRole("ADMIN"))
    }

    function UserCount(): (n: nat)
      reads this
      ensures n <= |users|
    {
      Count(users, HasRole("USER"))
    }

    /** `loadUsers`: a failed load keeps the list. */
    method LoadUsers(loaded: Option<seq<User>>)
      requires Valid()
      modifies this
      ensures Valid()
      ensures users == if loaded.Some? then loaded.value else old(users)
      ensures searchTerm == old(searchTerm) && selectedRoleFilter == old(selectedRoleFilter)
      ensures currentPage == old(currentPage)
      ensures selectedUser == old(selectedUser) && showDeleteModal == old(showDeleteModal)
    {
      if loaded.Some? {
        users := loaded.value;
      }
    }

    /** `goToPage`: only a page between 1 and the page count is taken. */
    method GoToPage(page: int)
      requires Valid()
      modifies this
      ensures Valid()
      ensures currentPage == if 1 <= page <= TotalPages(|Filtered()|) then page else old(currentPage)
      ensures users == old(users) && searchTerm == old(searchTerm) && selectedRoleFilter == old(selectedRoleFilter)
      ensures selectedUser == old(selectedUser) && showDeleteModal == old(showDeleteModal)
    {
      if 1 <= page <= TotalPages(|Filtered()|) {
        currentPage := page;
      }
    }

    /** `onSearchChange`: a new term goes back to the first page. */
    method OnSearchChange(value: string)
      requires Valid()
      modifies this
      ensures Valid() && searchTerm == value && currentPage == 1
      ensures users == old(users) && selectedRoleFilter == old(selectedRoleFilter)
      ensures selectedUser == old(selectedUser) && showDeleteModal == old(showDeleteModal)
    {
      searchTerm := value;
      currentPage := 1;
    }

    /** `onRoleFilterChange`: a new role goes back to the first page. */
    method OnRoleFilterChange(value: string)
      requires Valid()
      modifies this
      ensures Valid() && selectedRoleFilter == value && currentPage == 1
      ensures users == old(users) && searchTerm == old(searchTerm)
      ensures selectedUser == old(selectedUser) && showDeleteModal == old(showDeleteModal)
    {
      selectedRoleFilter := value;
      currentPage := 1;
    }

    method ConfirmDelete(user: User)
      requires Valid()
      modifies this
      ensures Valid() && selectedUser == Some(user) && showDeleteModal
      ensures users == old(users) && searchTerm == old(searchTerm) && selectedRoleFilter == old(selectedRoleFilter)
      ensures currentPage == old(currentPage)
    {
      selectedUser := Some(user);
      showDeleteModal := true;
    }

    method CancelDelete()
      requires Valid()
      modifies this
      ensures Valid() && selectedUser.None? && !showDeleteModal
      ensures users == old(users) && searchTerm == old(searchTerm) && selectedRoleFilter == old(selectedRoleFilter)
      ensures currentPage == old(currentPage)
    {
      selectedUser := None;
      showDeleteModal := false;
    }

    /**
     * `deleteUser`: the selected user's id is sent for deletion; on success
     * (`deleted`) the list is reloaded (`reloaded`) and the dialog closes; on
     * failure nothing changes.
     */
    method DeleteUser(deleted: bool, reloaded: Option<seq<User>>) returns (request: Option<int>)
      requires Valid()
      modifies this
      ensures Valid()
      ensures old(selectedUser).None? ==> request.None? && users == old(users) && showDeleteModal == old(showDeleteModal)
      ensures old(selectedUser).Some? ==> request == Some(old(selectedUser).value.id)
      ensures old(selectedUser).Some? && deleted ==>
        && users == (if reloaded.Some? then reloaded.value else old(users))
        && selectedUser.None? && !showDeleteModal
      ensures !deleted ==> users == old(users) && selectedUser == old(selectedUser) && showDeleteModal == old(showDeleteModal)
      ensures searchTerm == old(searchTerm) && selectedRoleFilter == old(selectedRoleFilter)
      ensures currentPage == old(currentPage)
    {
      if selectedUser.None? {
        return None;
      }
      request := Some(selectedUser.value.id);
      if deleted {
        LoadUsers(reloaded);
        CancelDelete();
      }
    }
  }
}
