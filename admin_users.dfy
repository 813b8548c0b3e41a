/**
 * The admin user table: users searched by email, paged ten at a time, with a
 * switch that grants or revokes the administrator flag.
 */
module AdminUsers {
  import opened Optional
  import opened Text
  import opened Lists
  import opened Paging
  import opened Toasts

  datatype User = User(id: string, email: string, isAdmin: bool)

  /** `users.filter(u => u.email.toLowerCase().includes(searchTerm.toLowerCase()))`. */
  function FilterUsers(users: seq<User>, searchTerm: string): (r: seq<User>)
    ensures forall u :: u in r <==> u in users && IncludesIgnoringCase(u.email, searchTerm)
  {
    Filter(users, (u: User) => IncludesIgnoringCase(u.email, searchTerm))
  }

  /** The search keeps the loaded order, and the empty term keeps everyone. */
  lemma FilterUsersSpec(users: seq<User>, searchTerm: string)
    ensures IsSubsequence(FilterUsers(users, searchTerm), users)
    ensures searchTerm == "" ==> FilterUsers(users, searchTerm) == users
  {
    FilterIsSubsequence(users, (u: User) => IncludesIgnoringCase(u.email, searchTerm));
    if searchTerm == "" {
      forall u | u in users
        ensures IncludesIgnoringCase(u.email, searchTerm)
      {
        IncludesEmptyTerm(u.email);
      }
      FilterAll(users, (u: User) => IncludesIgnoringCase(u.email, searchTerm));
    }
  }

  /** The field update the admin switch writes, and the notice it raises. */
  datatype AdminUpdate = AdminUpdate(userId: string, isAdmin: bool)

  /**
   * `handleToggleAdmin(userId, currentValue)`: writes the negated flag; the
   * notice names the direction of the change, or reports the store's failure.
   */
  function ToggleAdmin(userId: string, currentValue: bool, updateSucceeded: bool): (r: (AdminUpdate, Toast))
    ensures r.0.userId == userId && r.0.isAdmin != currentValue
    ensures updateSucceeded && currentValue ==> r.1 == Success("User removed from administrators")
    ensures updateSucceeded && !currentValue ==> r.1 == Success("User added to administrators")
    ensures !updateSucceeded ==> r.1 == Failure("Failed to update user status")
  {
    var update := AdminUpdate(userId, !currentValue);
    assert "User " + "removed from" + " administrators" == "User removed from administrators";
    assert "User " + "added to" + " administrators" == "User added to administrators";
    var toast :=
      if updateSucceeded then Success("User " + (if currentValue then "removed from" else "added to") + " administrators")
      else Failure("Failed to update user status");
    (update, toast)
  }

  /** Toggling the value that was just written puts the flag back. */
  lemma ToggleAdminTwice(userId: string, currentValue: bool, ok1: bool, ok2: bool)
    ensures ToggleAdmin(userId, ToggleAdmin(userId, currentValue, ok1).0.isAdmin, ok2).0.isAdmin == currentValue
  {
  }

  /** The state of the admin user table. */
  class AdminUsersPage {
    var users: seq<User>
    var searchTerm: string
    var currentPage: int

    ghost predicate Valid()
      reads this
    {
      currentPage >= 1
    }

    function FilteredUsers(): seq<User>
      reads this
    {
      FilterUsers(users, searchTerm)
    }

    function PageCount(): nat
      reads this
    {
      TotalPages(|FilteredUsers()|)
    }

    function PaginatedUsers(): seq<User>
      reads this
      requires Valid()
    {
      Page(FilteredUsers(), currentPage)
    }

    constructor (users: seq<User>)
      ensures Valid()
      ensures this.users == users && searchTerm == "" && currentPage == 1
    {
      this.users := users;
      searchTerm := "";
      currentPage := 1;
    }

    method UsersChanged(us: seq<User>)
      requires Valid()
      modifies this
      ensures Valid()
      ensures users == us && searchTerm == old(searchTerm) && currentPage == old(currentPage)
    {
      users := us;
    }

    /** Typing in the search box: the current page is not reset. */
    method SetSearchTerm(term: string)
      requires Valid()
      modifies this
      ensures Valid()
      ensures searchTerm == term && currentPage == old(currentPage) && users == old(users)
    {
      searchTerm := term;
    }

    method ClickPrevious()
      requires Valid()
      modifies this
      ensures Valid()
      ensures currentPage == AfterPrevious(old(currentPage))
      ensures users == old(users) && searchTerm == old(searchTerm)
    {
      if currentPage > 1 {
        currentPage := currentPage - 1;
      }
    }

    method ClickNext()
      requires Valid()
      modifies this
      ensures Valid()
      ensures currentPage == AfterNext(old(currentPage), old(PageCount()))
      ensures users == old(users) && searchTerm == old(searchTerm)
    {
      var totalPages := PageCount();
      if currentPage < totalPages {
        currentPage := currentPage + 1;
      }
    }

    method ClickPageLink(i: nat)
      requires Valid()
      requires i < PageCount()
      modifies this
      ensures Valid()
      ensures currentPage == i + 1 && 1 <= currentPage <= PageCount()
      ensures users == old(users) && searchTerm == old(searchTerm)
    {
      currentPage := LinkTarget(i, PageCount());
    }
  }
}
