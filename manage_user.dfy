/** The Manage Users page: every account, filtered by a search box, shown a
    page at a time, and edited through one dialog whose draft is `formData`.
    The outcome of each HTTP call is a parameter of its handler. */
module ManageUser {
  import opened Collections
  import opened Text
  import opened Pagination
  import opened Records
  import opened UserForm

  const UsersUrl := "http://localhost:4000/api/users"

  /** `formData`: the draft behind the dialog. `id` is None for a new account. */
  datatype AccountForm = AccountForm(
    id: Option<string>,
    fullname: string,
    email: string,
    role: string,
    profileImage: Option<Upload>,
    existingProfileImage: Option<Image>,
    isAdmin: bool,
    isManager: bool)

  /** The blank draft the page starts with, and that opening for a new account and closing reset to. */
  function BlankForm(): (f: AccountForm)
    ensures !IdIsSet(f.id) && f.id == None
    ensures f.fullname == "" && f.email == "" && f.role == ""
    ensures f.profileImage == None && f.existingProfileImage == None
    ensures !f.isAdmin && !f.isManager
  {
    AccountForm(None, "", "", "", None, None, false, false)
  }

  /** The draft for editing `u`: its id and fields, no new file, and the role its flags give. */
  function EditForm(u: User): (f: AccountForm)
    ensures f.id == Some(u.id)
    ensures f.role == RoleOf(u.isAdmin, u.isManager)
    ensures f.isAdmin == u.isAdmin && f.isManager == u.isManager
    ensures f.fullname == u.fullname && f.email == u.email
    ensures f.profileImage == None && f.existingProfileImage == u.profileImage
  {
    AccountForm(Some(u.id), u.fullname, u.email, RoleOf(u.isAdmin, u.isManager),
                None, u.profileImage, u.isAdmin, u.isManager)
  }

  /** The inputs of the dialog, all handled by `handleChange`. */
  datatype AccountInput =
    | FullnameInput(value: string)
    | EmailInput(value: string)
    | RoleInput(value: string)
    | FileInput(file: Upload)

  /** One edit of the draft: never the id or the stored image; the role radio
      sets the role and both flags; any other input changes only its own field. */
  function ApplyInput(f: AccountForm, input: AccountInput): (r: AccountForm)
    ensures r.id == f.id && r.existingProfileImage == f.existingProfileImage
    ensures input.RoleInput? ==>
      && r.role == input.value
      && (r.isAdmin <==> input.value == AdminRole)
      && (r.isManager <==> input.value == ManagerRole)
      && r.(role := f.role, isAdmin := f.isAdmin, isManager := f.isManager) == f
    ensures !input.RoleInput? ==> r.role == f.role && r.isAdmin == f.isAdmin && r.isManager == f.isManager
    ensures input.FullnameInput? ==> r.fullname == input.value && r.(fullname := f.fullname) == f
    ensures input.EmailInput? ==> r.email == input.value && r.(email := f.email) == f
    ensures input.FileInput? ==> r.profileImage == Some(input.file) && r.(profileImage := f.profileImage) == f
  {
    match input
    case FullnameInput(v) => f.(fullname := v)
    case EmailInput(v) => f.(email := v)
    case RoleInput(v) =>
      var flags := FlagsFor(v);
      f.(role := v, isAdmin := flags.isAdmin, isManager := flags.isManager)
    case FileInput(file) => f.(profileImage := Some(file))
  }

  /** A role choice can never leave an account both admin and manager. */
  lemma RoleInputExclusive(f: AccountForm, value: string)
    ensures !(ApplyInput(f, RoleInput(value)).isAdmin && ApplyInput(f, RoleInput(value)).isManager)
    ensures RoleLabel(ApplyInput(f, RoleInput(value)).isAdmin, ApplyInput(f, RoleInput(value)).isManager)
         == (if value == AdminRole then "Admin" else if value == ManagerRole then "Manager" else "Customer")
  {
  }

  /** The multipart body `handleSubmit` builds. */
  datatype AccountPayload = AccountPayload(
    fullname: string,
    email: string,
    isAdmin: bool,
    isManager: bool,
    image: ImagePart)

  /** Submitting `f`: PUT to `/<id>` exactly when the draft id is set, POST to
      the collection otherwise, carrying the draft's fields and the chosen image part. */
  function SubmitRequest(f: AccountForm): (r: Request<AccountPayload>)
    ensures r.Put? <==> IdIsSet(f.id)
    ensures r.Post? <==> !IdIsSet(f.id)
    ensures r.Put? ==> r.url == UsersUrl + "/" + f.id.value
    ensures r.Post? ==> r.url == UsersUrl
    ensures r.body.fullname == f.fullname && r.body.email == f.email
    ensures r.body.isAdmin == f.isAdmin && r.body.isManager == f.isManager
    ensures r.body.image == ImageChoice(f.profileImage, f.existingProfileImage)
  {
    var body := AccountPayload(f.fullname, f.email, f.isAdmin, f.isManager,
                               ImageChoice(f.profileImage, f.existingProfileImage));
    if IdIsSet(f.id) then Put(UsersUrl + "/" + f.id.value, body) else Post(UsersUrl, body)
  }

  /** A fresh draft, whatever is typed into it, is posted as a new account:
      no field edit touches the id. */
  lemma BlankFormCreates(inputs: seq<AccountInput>)
    ensures SubmitRequest(FoldLeft(ApplyInput, BlankForm(), inputs)).Post?
  {
    FoldLeftPreserves(ApplyInput, (f: AccountForm) => f.id == None, BlankForm(), inputs);
  }

  predicate SearchHit(u: User, query: string) {
    MatchesQuery(u.fullname, query) || MatchesQuery(u.email, query)
  }

  /** `filteredData`: the accounts whose name or email contains the query,
      ignoring case, whatever their role. */
  function FilteredUsers(data: seq<User>, query: string): (r: seq<User>)
    ensures forall u :: u in r <==> u in data && SearchHit(u, query)
    ensures |r| <= |data|
  {
    Filter(data, u => SearchHit(u, query))
  }

  /** The listed accounts keep the order they were fetched in. */
  lemma UsersKeepOrder(data: seq<User>, query: string)
    ensures IsSubsequence(FilteredUsers(data, query), data)
  {
    FilterIsSubsequence(data, u => SearchHit(u, query));
  }

  /** An empty search box lists every account, unchanged. */
  lemma EmptyQueryListsAllUsers(data: seq<User>)
    ensures FilteredUsers(data, "") == data
  {
    forall u | u in data ensures SearchHit(u, "") {
      EmptyQueryMatches(u.fullname);
    }
    FilterKeepsAll(data, u => SearchHit(u, ""));
  }

  /** The page's state, as the component's `useState` hooks hold it. */
  class UsersPage {
    var data: Option<seq<User>>   // null until the first fetch succeeds
    var open: bool
    var form: AccountForm
    var searchQuery: string
    const pager: Pager

    constructor ()
      ensures data == None && !open && form == BlankForm() && searchQuery == ""
      ensures fresh(pager) && pager.page == 0 && pager.rowsPerPage == 5
    {
      data := None;
      open := false;
      form := BlankForm();
      searchQuery := "";
      pager := new Pager();
    }

    /** `data?.filter(...)`: nothing until the accounts have been fetched. */
    function Filtered(): (r: Option<seq<User>>)
      reads this
      ensures r.None? <==> data.None?
      ensures r.Some? ==> r.value == FilteredUsers(data.value, searchQuery)
    {
      match data
      case None => None
      case Some(users) => Some(FilteredUsers(users, searchQuery))
    }

    /** `count={filteredData?.length || 0}`. */
    function Count(): (n: nat)
      reads this
      ensures data.None? ==> n == 0
      ensures data.Some? ==> n == |FilteredUsers(data.value, searchQuery)|
    {
      if Filtered().Some? then |Filtered().value| else 0
    }

    /** The rows on the current page: matching accounts only, at most one page of them. */
    function VisibleRows(): (r: seq<User>)
      reads this, pager
      ensures data.Some? ==> r == Window(FilteredUsers(data.value, searchQuery), pager.page, pager.rowsPerPage)
      ensures data.None? ==> r == []
      ensures |r| <= pager.rowsPerPage
      ensures forall u :: u in r ==> data.Some? && u in data.value && SearchHit(u, searchQuery)
    {
      if Filtered().Some? then pager.Visible(Filtered().value) else []
    }

    /** The fetch on mount: a successful response replaces the data, a failure keeps it. */
    method Loaded(response: Option<seq<User>>)
      modifies this
      ensures data == (if response.Some? then response else old(data))
      ensures open == old(open) && form == old(form) && searchQuery == old(searchQuery)
    {
      if response.Some? {
        data := response;
      }
    }

    /** `handleClickOpen(record)`: edit the given account, or start a blank one. */
    method ClickOpen(record: Option<User>)
      modifies this
      ensures open
      ensures record.Some? ==> form == EditForm(record.value)
      ensures record.None? ==> form == BlankForm()
      ensures data == old(data) && searchQuery == old(searchQuery)
    {
      if record.Some? {
        form := EditForm(record.value);
      } else {
        form := BlankForm();
      }
      open := true;
    }

    /** `handleClose`: the dialog closes and the draft is discarded. */
    method Close()
      modifies this
      ensures !open && form == BlankForm()
      ensures data == old(data) && searchQuery == old(searchQuery)
    {
      open := false;
      form := BlankForm();
    }

    /** `handleChange`. */
    method Change(input: AccountInput)
      modifies this
      ensures form == ApplyInput(old(form), input)
      ensures open == old(open) && data == old(data) && searchQuery == old(searchQuery)
    {
      form := ApplyInput(form, input);
    }

    /** `handleSubmit`: sends the draft, re-fetches the accounts if every call
        succeeded (`refetched`), and closes the dialog whether or not they did. */
    method Submit(refetched: Option<seq<User>>) returns (req: Request<AccountPayload>)
      modifies this
      ensures req == SubmitRequest(old(form))
      ensures data == (if refetched.Some? then refetched else old(data))
      ensures !open && form == BlankForm()
      ensures searchQuery == old(searchQuery)
    {
      req := SubmitRequest(form);
      if refetched.Some? {
        data := refetched;
      }
      Close();
    }

    /** `handleDelete(id)`: deletes the account and re-fetches. */
    method Delete(id: string, refetched: Option<seq<User>>) returns (req: Request<()>)
      modifies this
      ensures req == Request.Delete(UsersUrl + "/" + id, ())
      ensures data == (if refetched.Some? then refetched else old(data))
      ensures open == old(open) && form == old(form) && searchQuery == old(searchQuery)
    {
      req := Request.Delete(UsersUrl + "/" + id, ());
      if refetched.Some? {
        data := refetched;
      }
    }

    /** `handleSearch`: only the query changes; the page index is left where it was. */
    method Search(query: string)
      modifies this
      ensures searchQuery == query
      ensures data == old(data) && open == old(open) && form == old(form)
    {
      searchQuery := query;
    }
  }
}
