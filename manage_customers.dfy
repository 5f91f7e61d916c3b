/** The Manage Customers page: the users listed as customers, filtered by a
    search box, shown a page at a time, and edited through one dialog whose
    draft is `formData`. The acting user's id, the clock (`dayjs()`) and the
    outcome of each HTTP call are parameters of the handlers. */
module ManageCustomers {
  import opened Collections
  import opened Text
  import opened Pagination
  import opened Records
  import opened UserForm

  const UsersUrl := "https://angkringan-backend.vercel.app/api/users"

  /** `formData`: the draft behind the dialog. `id` is None for a new customer. */
  datatype CustomerForm = CustomerForm(
    id: Option<string>,
    fullname: string,
    email: string,
    password: string,
    date: int,
    role: string,
    profileImage: Option<Upload>,
    existingProfileImage: Option<Image>,
    isAdmin: bool,
    isManager: bool)

  /** The draft the page starts with: role "customer", taken at time `now`. */
  function InitialForm(now: int): (f: CustomerForm)
    ensures f == BlankForm(now).(role := CustomerRole)
    ensures f.role == CustomerRole && f.role != BlankForm(now).role
    ensures !IdIsSet(f.id) && !f.isAdmin && !f.isManager
  {
    CustomerForm(None, "", "", "", now, CustomerRole, None, None, false, false)
  }

  /** The blank draft that opening for a new customer and closing reset to (role ""). */
  function BlankForm(now: int): (f: CustomerForm)
    ensures f.id == None && !f.isAdmin && !f.isManager && f.role == ""
    ensures f.fullname == "" && f.email == "" && f.password == "" && f.date == now
    ensures f.profileImage == None && f.existingProfileImage == None
  {
    CustomerForm(None, "", "", "", now, "", None, None, false, false)
  }

  /** The draft for editing `u`: its id and fields, no new file, and the role its flags give. */
  function EditForm(u: User): (f: CustomerForm)
    ensures f.id == Some(u.id) && IdIsSet(f.id) == (u.id != "")
    ensures f.role == RoleOf(u.isAdmin, u.isManager)
    ensures f.isAdmin == u.isAdmin && f.isManager == u.isManager
    ensures f.fullname == u.fullname && f.email == u.email && f.password == u.password && f.date == u.date
    ensures f.profileImage == None && f.existingProfileImage == u.profileImage
  {
    CustomerForm(Some(u.id), u.fullname, u.email, u.password, u.date,
                 RoleOf(u.isAdmin, u.isManager), None, u.profileImage, u.isAdmin, u.isManager)
  }

  /** The inputs of the dialog: three text fields, the role radio group, the
      file input (`handleChange`) and the date picker (`handleDateChange`). */
  datatype CustomerInput =
    | FullnameInput(value: string)
    | EmailInput(value: string)
    | PasswordInput(value: string)
    | RoleInput(value: string)
    | FileInput(file: Upload)
    | DateInput(date: int)

  /** One edit of the draft: it never touches the id or the stored image; the
      role radio sets the role together with both flags; every other input
      changes its own field and nothing else. */
  function ApplyInput(f: CustomerForm, input: CustomerInput): (r: CustomerForm)
    ensures r.id == f.id && r.existingProfileImage == f.existingProfileImage
    ensures input.RoleInput? ==>
      && r.role == input.value
      && (r.isAdmin <==> input.value == AdminRole)
      && (r.isManager <==> input.value == ManagerRole)
      && r.(role := f.role, isAdmin := f.isAdmin, isManager := f.isManager) == f
    ensures !input.RoleInput? ==> r.role == f.role && r.isAdmin == f.isAdmin && r.isManager == f.isManager
    ensures input.FullnameInput? ==> r.fullname == input.value && r.(fullname := f.fullname) == f
    ensures input.EmailInput? ==> r.email == input.value && r.(email := f.email) == f
    ensures input.PasswordInput? ==> r.password == input.value && r.(password := f.password) == f
    ensures input.FileInput? ==> r.profileImage == Some(input.file) && r.(profileImage := f.profileImage) == f
    ensures input.DateInput? ==> r.date == input.date && r.(date := f.date) == f
  {
    match input
    case FullnameInput(v) => f.(fullname := v)
    case EmailInput(v) => f.(email := v)
    case PasswordInput(v) => f.(password := v)
    case RoleInput(v) =>
      var flags := FlagsFor(v);
      f.(role := v, isAdmin := flags.isAdmin, isManager := flags.isManager)
    case FileInput(file) => f.(profileImage := Some(file))
    case DateInput(d) => f.(date := d)
  }

  /** The multipart body `handleSubmit` builds. */
  datatype CustomerPayload = CustomerPayload(
    fullname: string,
    email: string,
    isAdmin: bool,
    isManager: bool,
    password: string,
    date: int,
    userId: string,
    image: ImagePart)

  /** Submitting `f` as the user `actorId`: PUT to `/<id>` exactly when the
      draft id is set, POST to the collection otherwise, with the draft's own
      fields, the acting user's id, and the chosen image part. */
  function SubmitRequest(f: CustomerForm, actorId: string): (r: Request<CustomerPayload>)
    ensures r.Put? <==> IdIsSet(f.id)
    ensures r.Post? <==> !IdIsSet(f.id)
    ensures r.Put? ==> r.url == UsersUrl + "/" + f.id.value
    ensures r.Post? ==> r.url == UsersUrl
    ensures r.body.fullname == f.fullname && r.body.email == f.email && r.body.password == f.password
    ensures r.body.isAdmin == f.isAdmin && r.body.isManager == f.isManager && r.body.date == f.date
    ensures r.body.userId == actorId
    ensures r.body.image == ImageChoice(f.profileImage, f.existingProfileImage)
  {
    var body := CustomerPayload(f.fullname, f.email, f.isAdmin, f.isManager, f.password, f.date,
                                actorId, ImageChoice(f.profileImage, f.existingProfileImage));
    if IdIsSet(f.id) then Put(UsersUrl + "/" + f.id.value, body) else Post(UsersUrl, body)
  }

  /** Opening a customer, changing nothing and submitting updates that customer,
      never creates one, and does not alter the role flags it had. */
  lemma EditThenSubmitUpdates(u: User, actorId: string)
    requires u.id != ""
    ensures SubmitRequest(EditForm(u), actorId) == Put(UsersUrl + "/" + u.id, SubmitRequest(EditForm(u), actorId).body)
    ensures SubmitRequest(EditForm(u), actorId).body.isAdmin == u.isAdmin
    ensures SubmitRequest(EditForm(u), actorId).body.isManager == u.isManager
  {
  }

  predicate IsCustomer(u: User) {
    !u.isAdmin && !u.isManager
  }

  predicate SearchHit(u: User, query: string) {
    MatchesQuery(u.fullname, query) || MatchesQuery(u.email, query)
  }

  /** `filteredData`: while the role filter is "customer", the users that are
      neither admin nor manager and whose name or email contains the query,
      ignoring case; for any other role filter, nobody. */
  function FilteredCustomers(data: seq<User>, roleFilter: string, query: string): (r: seq<User>)
    ensures forall u :: u in r ==> u in data && roleFilter == CustomerRole && IsCustomer(u) && SearchHit(u, query)
    ensures forall u :: u in data && roleFilter == CustomerRole && IsCustomer(u) && SearchHit(u, query) ==> u in r
    ensures roleFilter != CustomerRole ==> r == []
    ensures |r| <= |data|
  {
    Filter(data, u => roleFilter == CustomerRole && IsCustomer(u) && SearchHit(u, query))
  }

  /** The listed customers keep the order they were fetched in. */
  lemma CustomersKeepOrder(data: seq<User>, roleFilter: string, query: string)
    ensures IsSubsequence(FilteredCustomers(data, roleFilter, query), data)
  {
    FilterIsSubsequence(data, u => roleFilter == CustomerRole && IsCustomer(u) && SearchHit(u, query));
  }

  /** An empty search box lists every customer, in order. */
  lemma EmptyQueryListsAllCustomers(data: seq<User>)
    ensures FilteredCustomers(data, CustomerRole, "") == Filter(data, IsCustomer)
  {
    forall u | u in data ensures SearchHit(u, "") {
      EmptyQueryMatches(u.fullname);
    }
    FilterCongruent(data, u => CustomerRole == CustomerRole && IsCustomer(u) && SearchHit(u, ""), IsCustomer);
  }

  /** The search narrows the customer list: role test and search test intersect. */
  lemma SearchNarrowsCustomers(data: seq<User>, query: string)
    ensures FilteredCustomers(data, CustomerRole, query)
         == Filter(Filter(data, IsCustomer), u => SearchHit(u, query))
  {
    FilterTwice(data, IsCustomer, u => SearchHit(u, query),
                u => CustomerRole == CustomerRole && IsCustomer(u) && SearchHit(u, query));
  }

  /** The page's state, as the component's `useState` hooks hold it. */
  class CustomersPage {
    var data: Option<seq<User>>   // null until the first fetch succeeds
    var open: bool
    var form: CustomerForm
    var searchQuery: string
    var roleFilter: string
    const pager: Pager

    constructor (now: int)
      ensures data == None && !open && form == InitialForm(now)
      ensures searchQuery == "" && roleFilter == CustomerRole
      ensures fresh(pager) && pager.page == 0 && pager.rowsPerPage == 5
    {
      data := None;
      open := false;
      form := InitialForm(now);
      searchQuery := "";
      roleFilter := CustomerRole;
      pager := new Pager();
    }

    /** `data?.filter(...)`: nothing until the users have been fetched. */
    function Filtered(): (r: Option<seq<User>>)
      reads this
      ensures r.None? <==> data.None?
      ensures r.Some? ==> r.value == FilteredCustomers(data.value, roleFilter, searchQuery)
    {
      match data
      case None => None
      case Some(users) => Some(FilteredCustomers(users, roleFilter, searchQuery))
    }

    /** `count={filteredData?.length || 0}`. */
    function Count(): (n: nat)
      reads this
      ensures data.None? ==> n == 0
      ensures data.Some? ==> n == |FilteredCustomers(data.value, roleFilter, searchQuery)|
    {
      if Filtered().Some? then |Filtered().value| else 0
    }

    /** The rows on the current page: listed customers only, at most one page of them. */
    function VisibleRows(): (r: seq<User>)
      reads this, pager
      ensures data.Some? ==> r == Window(FilteredCustomers(data.value, roleFilter, searchQuery), pager.page, pager.rowsPerPage)
      ensures data.None? ==> r == []
      ensures |r| <= pager.rowsPerPage
      ensures forall u :: u in r ==> data.Some? && u in FilteredCustomers(data.value, roleFilter, searchQuery)
    {
      if Filtered().Some? then pager.Visible(Filtered().value) else []
    }

    /** The fetch on mount: a successful response replaces the data, a failure keeps it. */
    method Loaded(response: Option<seq<User>>)
      modifies this
      ensures data == (if response.Some? then response else old(data))
      ensures open == old(open) && form == old(form)
      ensures searchQuery == old(searchQuery) && roleFilter == old(roleFilter)
    {
      if response.Some? {
        data := response;
      }
    }

    /** `handleClickOpen(record)`: edit the given customer, or start a blank one. */
    method ClickOpen(record: Option<User>, now: int)
      modifies this
      ensures open
      ensures record.Some? ==> form == EditForm(record.value)
      ensures record.None? ==> form == BlankForm(now)
      ensures data == old(data) && searchQuery == old(searchQuery) && roleFilter == old(roleFilter)
    {
      if record.Some? {
        form := EditForm(record.value);
      } else {
        form := BlankForm(now);
      }
      open := true;
    }

    /** `handleClose`: the dialog closes and the draft is discarded. */
    method Close(now: int)
      modifies this
      ensures !open && form == BlankForm(now)
      ensures data == old(data) && searchQuery == old(searchQuery) && roleFilter == old(roleFilter)
    {
      open := false;
      form := BlankForm(now);
    }

    /** `handleChange` / `handleDateChange`. */
    method Change(input: CustomerInput)
      modifies this
      ensures form == ApplyInput(old(form), input)
      ensures open == old(open) && data == old(data)
      ensures searchQuery == old(searchQuery) && roleFilter == old(roleFilter)
    {
      form := ApplyInput(form, input);
    }

    /** `handleSubmit`: sends the draft, re-fetches the users if every call
        succeeded (`refetched`), and closes the dialog whether or not they did. */
    method Submit(actorId: string, now: int, refetched: Option<seq<User>>)
      returns (req: Request<CustomerPayload>)
      modifies this
      ensures req == SubmitRequest(old(form), actorId)
      ensures data == (if refetched.Some? then refetched else old(data))
      ensures !open && form == BlankForm(now)
      ensures searchQuery == old(searchQuery) && roleFilter == old(roleFilter)
    {
      req := SubmitRequest(form, actorId);
      if refetched.Some? {
        data := refetched;
      }
      Close(now);
    }

    /** `handleDelete(id)`: deletes with the acting user's id in the body and re-fetches. */
    method Delete(id: string, actorId: string, refetched: Option<seq<User>>)
      returns (req: Request<string>)
      modifies this
      ensures req == Request.Delete(UsersUrl + "/" + id, actorId)
      ensures data == (if refetched.Some? then refetched else old(data))
      ensures open == old(open) && form == old(form)
      ensures searchQuery == old(searchQuery) && roleFilter == old(roleFilter)
    {
      req := Request.Delete(UsersUrl + "/" + id, actorId);
      if refetched.Some? {
        data := refetched;
      }
    }

    /** `handleSearch`: only the query changes; the page index is left where it was. */
    method Search(query: string)
      modifies this
      ensures searchQuery == query
      ensures data == old(data) && open == old(open) && form == old(form) && roleFilter == old(roleFilter)
    {
      searchQuery := query;
    }

    /** `handleRoleFilterChange`. */
    method ChangeRoleFilter(value: string)
      modifies this
      ensures roleFilter == value
      ensures data == old(data) && open == old(open) && form == old(form) && searchQuery == old(searchQuery)
    {
      roleFilter := value;
    }
  }
}
