/** The user list (components/Users.js): the search effect, paging ten users a
    page with clamped previous/next, and the add/edit/delete handlers with their
    requests. */
module UsersView {
  import opened Js
  import Lists
  import Paging
  import Session

  datatype UserRow = UserRow(id: Value, firstName: string, lastName: string, email: string,
                             phoneNumber: string, userRole: string)

  /** Whether the lower-cased (untrimmed) query occurs in one of the four searched fields. */
  predicate Mentions(user: UserRow, query: string) {
    || Includes(Lower(user.firstName), query)
    || Includes(Lower(user.lastName), query)
    || Includes(Lower(user.email), query)
    || Includes(Lower(user.phoneNumber), query)
  }

  function MentionsQuery(query: string): UserRow -> bool {
    (user: UserRow) => Mentions(user, query)
  }

  /** The search effect's result. */
  function SearchResults(users: seq<UserRow>, searchQuery: string): seq<UserRow> {
    if Trim(searchQuery) == "" then users
    else Lists.Filter(users, MentionsQuery(Lower(searchQuery)))
  }

  /** A blank (whitespace-only) query shows every user; otherwise a user is shown
      iff the lower-cased query, spaces included, occurs in a searched field.
      The result keeps the users' order. */
  lemma SearchResultsSpec(users: seq<UserRow>, searchQuery: string, u: UserRow)
    ensures Blank(searchQuery) ==> SearchResults(users, searchQuery) == users
    ensures !Blank(searchQuery) ==>
      (u in SearchResults(users, searchQuery) <==> u in users && Mentions(u, Lower(searchQuery)))
    ensures Lists.Subsequence(SearchResults(users, searchQuery), users)
  {
    TrimEmptyIffBlank(searchQuery);
    Lists.FilterIsSubsequence(users, MentionsQuery(Lower(searchQuery)));
    if Blank(searchQuery) {
      SubsequenceOfItself(users);
    }
  }

  lemma {:induction false} SubsequenceOfItself(s: seq<UserRow>)
    ensures Lists.Subsequence(s, s)
    decreases |s|
  {
    if s != [] {
      SubsequenceOfItself(s[1..]);
    }
  }

  const ItemsPerPage := 10

  function EmptyForm(): map<string, string> {
    map["first_name" := "", "last_name" := "", "email" := "", "phone_number" := "", "user_role" := ""]
  }

  /** The five fields handleEditUser copies into the form. */
  function EditForm(user: UserRow): (form: map<string, string>)
    ensures form.Keys == EmptyForm().Keys
    ensures form["first_name"] == user.firstName && form["last_name"] == user.lastName
    ensures form["email"] == user.email && form["phone_number"] == user.phoneNumber
    ensures form["user_role"] == user.userRole
  {
    map["first_name" := user.firstName, "last_name" := user.lastName, "email" := user.email,
        "phone_number" := user.phoneNumber, "user_role" := user.userRole]
  }

  /** The form as a request body. */
  function FormBody(form: map<string, string>): (body: Value)
    ensures body.Obj? && body.fields.Keys == form.Keys
    ensures forall k :: k in form ==> body.fields[k] == Str(form[k])
  {
    Obj(map k | k in form :: Str(form[k]))
  }

  function UserEndpoint(user: UserRow): string {
    "/users/" + ToText(user.id) + "/"
  }

  /** The request handleSubmit sends: an update of the selected user, or a registration. */
  function SubmitCall(selected: Option<UserRow>, form: map<string, string>): (call: Session.Call)
    ensures call.data == FormBody(form)
    ensures selected.Some? ==> call.verb == "put" && call.endpoint == UserEndpoint(selected.value)
    ensures selected.None? ==> call.verb == "post" && call.endpoint == "/register/"
  {
    match selected
    case Some(user) => Session.Call("put", UserEndpoint(user), FormBody(form))
    case None => Session.Call("post", "/register/", FormBody(form))
  }

  class UsersScreen {
    var users: seq<UserRow>
    var filteredUsers: seq<UserRow>
    var searchQuery: string
    var currentPage: int
    var isModalOpen: bool
    var isDeleteConfirmOpen: bool
    var selectedUser: Option<UserRow>
    var formData: map<string, string>
    var error: Option<string>
    /** The requests sent, in order, and how many times the users were re-fetched. */
    var calls: seq<Session.Call>
    var fetches: nat

    constructor ()
      ensures users == [] && filteredUsers == [] && searchQuery == "" && currentPage == 1
      ensures selectedUser == None && !isModalOpen && !isDeleteConfirmOpen
      ensures calls == [] && fetches == 0
    {
      users, filteredUsers, searchQuery, currentPage := [], [], "", 1;
      isModalOpen, isDeleteConfirmOpen, selectedUser := false, false, None;
      formData := EmptyForm()["user_role" := "User"];
      error := None;
      calls, fetches := [], 0;
    }

    /** The search effect, run whenever the query or the users change. */
    method SearchEffect()
      modifies this`filteredUsers, this`currentPage
      ensures filteredUsers == SearchResults(users, searchQuery) && currentPage == 1
    {
      if Trim(searchQuery) == "" {
        filteredUsers := users;
      } else {
        var query := Lower(searchQuery);
        filteredUsers := Lists.Filter(users, MentionsQuery(query));
      }
      currentPage := 1;
    }

    method ChangeQuery(query: string)
      modifies this`searchQuery, this`filteredUsers, this`currentPage
      ensures searchQuery == query
      ensures filteredUsers == SearchResults(users, query) && currentPage == 1
    {
      searchQuery := query;
      SearchEffect();
    }

    /** fetchUsers: a response with data replaces the users, and the search
        effect then runs; a falsy response or data changes nothing. */
    method ReceiveUsers(data: Option<seq<UserRow>>)
      modifies this`users, this`filteredUsers, this`currentPage
      ensures data.None? ==> users == old(users) && filteredUsers == old(filteredUsers) && currentPage == old(currentPage)
      ensures data.Some? ==> users == data.value && filteredUsers == SearchResults(users, searchQuery) && currentPage == 1
    {
      if data.Some? {
        users := data.value;
        filteredUsers := data.value;
        SearchEffect();
      }
    }

    /** fetchUsers when the request throws: a fixed message, the users kept. */
    method FetchFailed()
      modifies this`error
      ensures error == Some("Failed to fetch users")
    {
      error := Some("Failed to fetch users");
    }

    function TotalPages(): nat
      reads this`filteredUsers
    {
      Paging.TotalPages(|filteredUsers|, ItemsPerPage)
    }

    function PaginatedUsers(): seq<UserRow>
      reads this`filteredUsers, this`currentPage
    {
      Paging.PageSlice(filteredUsers, currentPage, ItemsPerPage)
    }

    /** The previous/next controls are drawn only with more than one page. */
    predicate ControlsShown()
      reads this`filteredUsers
    {
      TotalPages() > 1
    }

    method PreviousPage()
      requires ControlsShown()
      modifies this`currentPage
      ensures currentPage == Paging.PrevTarget(old(currentPage))
    {
      currentPage := Max(currentPage - 1, 1);
    }

    method NextPage()
      requires ControlsShown()
      modifies this`currentPage
      ensures currentPage == Paging.NextTarget(old(currentPage), TotalPages())
    {
      currentPage := Min(currentPage + 1, TotalPages());
    }

    method HandleInputChange(name: string, value: string)
      modifies this`formData
      ensures formData == old(formData)[name := value]
    {
      formData := formData[name := value];
    }

    method HandleAddUser()
      modifies this`selectedUser, this`formData, this`isModalOpen
      ensures selectedUser == None && formData == EmptyForm() && isModalOpen
    {
      selectedUser := None;
      formData := EmptyForm();
      isModalOpen := true;
    }

    method HandleEditUser(user: UserRow)
      modifies this`selectedUser, this`formData, this`isModalOpen
      ensures selectedUser == Some(user) && formData == EditForm(user) && isModalOpen
    {
      selectedUser := Some(user);
      formData := EditForm(user);
      isModalOpen := true;
    }

    method HandleDeleteClick(user: UserRow)
      modifies this`selectedUser, this`isDeleteConfirmOpen
      ensures selectedUser == Some(user) && isDeleteConfirmOpen
    {
      selectedUser := Some(user);
      isDeleteConfirmOpen := true;
    }

    /** handleSubmit: update or register, then re-fetch and close; a thrown
        request sets the matching error and leaves the modal open. */
    method HandleSubmit(api: Session.Call -> Session.RequestResult)
      modifies this`calls, this`fetches, this`isModalOpen, this`error
      ensures calls == old(calls) + [SubmitCall(selectedUser, formData)]
      ensures !api(SubmitCall(selectedUser, formData)).Rejected? ==>
        fetches == old(fetches) + 1 && !isModalOpen && error == old(error)
      ensures api(SubmitCall(selectedUser, formData)).Rejected? ==>
        fetches == old(fetches) && isModalOpen == old(isModalOpen)
        && error == Some(if selectedUser.Some? then "Failed to update user" else "Failed to create user")
    {
      var call;
      if selectedUser.Some? {
        call := Session.Call("put", UserEndpoint(selectedUser.value), FormBody(formData));
      } else {
        call := Session.Call("post", "/register/", FormBody(formData));
      }
      calls := calls + [call];
      var response := api(call);
      if response.Rejected? {
        error := Some(if selectedUser.Some? then "Failed to update user" else "Failed to create user");
      } else {
        fetches := fetches + 1;
        isModalOpen := false;
      }
    }

    /** handleDeleteConfirm: nothing without a selected user. */
    method HandleDeleteConfirm(api: Session.Call -> Session.RequestResult)
      modifies this`calls, this`fetches, this`isDeleteConfirmOpen, this`error
      ensures selectedUser.None? ==>
        calls == old(calls) && fetches == old(fetches) && isDeleteConfirmOpen == old(isDeleteConfirmOpen)
      ensures selectedUser.Some? ==>
        var call := Session.Call("delete", UserEndpoint(selectedUser.value), Null);
        && calls == old(calls) + [call]
        && (!api(call).Rejected? ==> fetches == old(fetches) + 1 && !isDeleteConfirmOpen)
        && (api(call).Rejected? ==>
              fetches == old(fetches) && isDeleteConfirmOpen == old(isDeleteConfirmOpen)
              && error == Some("Failed to delete user"))
    {
      if selectedUser.None? {
        return;
      }
      var call := Session.Call("delete", UserEndpoint(selectedUser.value), Null);
      calls := calls + [call];
      var response := api(call);
      if response.Rejected? {
        error := Some("Failed to delete user");
      } else {
        fetches := fetches + 1;
        isDeleteConfirmOpen := false;
      }
    }
  }

  /** A page of the user list starts at (page-1)·10 and holds at most ten users,
      and from a page in range the clamped previous/next stay in [1, totalPages]. */
  lemma UserPagingSpec(filtered: seq<UserRow>, page: int)
    requires 1 <= page <= Paging.TotalPages(|filtered|, ItemsPerPage)
    ensures var r := Paging.PageSlice(filtered, page, ItemsPerPage);
      && 0 < |r| <= ItemsPerPage
      && forall k :: 0 <= k < |r| ==> r[k] == filtered[(page - 1) * ItemsPerPage + k]
    ensures var total := Paging.TotalPages(|filtered|, ItemsPerPage);
      && 1 <= Paging.PrevTarget(page) <= total
      && 1 <= Paging.NextTarget(page, total) <= total
  {
    Paging.PageSliceContents(filtered, page, ItemsPerPage);
    Paging.PagesInRangeAreNonEmpty(filtered, page, ItemsPerPage);
  }
}
