/** The Manage Stocks page: menus filtered by name or description, shown a page
    at a time, with a dialog that edits one menu's stock. The acting user's id
    and the outcome of each HTTP call are parameters of the handlers. */
module ManageStocks {
  import opened Collections
  import opened Text
  import opened Pagination
  import opened Records

  const MenusUrl := "http://localhost:4000/api/menus"

  /** `formData`: the menu being edited and the stock typed for it. */
  datatype StockForm = StockForm(id: Option<string>, menuStock: int)

  /** The draft the page starts with and that closing resets to. */
  function BlankForm(): (f: StockForm)
    ensures !IdIsSet(f.id) && f.id == None
    ensures f.menuStock == 0
  {
    StockForm(None, 0)
  }

  /** Opening the dialog for `m` copies its id and its stock, nothing else. */
  function EditForm(m: Menu): (f: StockForm)
    ensures f.id == Some(m.id) && f.menuStock == m.menuStock
  {
    StockForm(Some(m.id), m.menuStock)
  }

  /** The body of the stock update: the new stock and who made the change. */
  datatype StockPayload = StockPayload(menuStock: int, userId: string)

  /** Submitting is always a PUT to `/<id>` (`${formData.id}` prints a missing id
      as "null") carrying exactly the draft's stock and the acting user's id. */
  function SubmitRequest(f: StockForm, actorId: string): (r: Request<StockPayload>)
    ensures r.Put?
    ensures f.id.Some? ==> r.url == MenusUrl + "/" + f.id.value
    ensures f.id.None? ==> r.url == MenusUrl + "/null"
    ensures r.body.menuStock == f.menuStock && r.body.userId == actorId
  {
    Put(MenusUrl + "/" + IdText(f.id), StockPayload(f.menuStock, actorId))
  }

  /** Editing a menu's stock and submitting updates that menu with the typed stock. */
  lemma EditStockUpdatesMenu(m: Menu, stock: int, actorId: string)
    ensures SubmitRequest(EditForm(m).(menuStock := stock), actorId)
         == Put(MenusUrl + "/" + m.id, StockPayload(stock, actorId))
  {
  }

  predicate SearchHit(m: Menu, query: string) {
    MatchesQuery(m.menuName, query) || MatchesQuery(m.menuDesc, query)
  }

  /** `filteredData`: the menus whose name or description contains the query, ignoring case. */
  function FilteredMenus(data: seq<Menu>, query: string): (r: seq<Menu>)
    ensures forall m :: m in r <==> m in data && SearchHit(m, query)
    ensures |r| <= |data|
  {
    Filter(data, m => SearchHit(m, query))
  }

  /** The listed menus keep the order they were fetched in. */
  lemma MenusKeepOrder(data: seq<Menu>, query: string)
    ensures IsSubsequence(FilteredMenus(data, query), data)
  {
    FilterIsSubsequence(data, m => SearchHit(m, query));
  }

  /** An empty search box lists every menu, unchanged. */
  lemma EmptyQueryListsAllMenus(data: seq<Menu>)
    ensures FilteredMenus(data, "") == data
  {
    forall m | m in data ensures SearchHit(m, "") {
      EmptyQueryMatches(m.menuName);
    }
    FilterKeepsAll(data, m => SearchHit(m, ""));
  }

  /** The page's state, as the component's `useState` hooks hold it. */
  class StocksPage {
    var data: Option<seq<Menu>>   // null until the first fetch succeeds
    var open: bool
    var form: StockForm
    var searchQuery: string
    const pager: Pager

    constructor ()
      ensures data == None && !open && form == BlankForm() && searchQuery == ""
      ensures fresh(pager) && pager.page == 0 && pager.rowsPerPage == 5
    {
      data := None;
      open := false;
      form := BlankForm();
      searchQuery := "";
      pager := new Pager();
    }

    /** `data?.filter(...)`: nothing until the menus have been fetched. */
    function Filtered(): (r: Option<seq<Menu>>)
      reads this
      ensures r.None? <==> data.None?
      ensures r.Some? ==> r.value == FilteredMenus(data.value, searchQuery)
    {
      match data
      case None => None
      case Some(menus) => Some(FilteredMenus(menus, searchQuery))
    }

    /** `count={filteredData?.length || 0}`. */
    function Count(): (n: nat)
      reads this
      ensures data.None? ==> n == 0
      ensures data.Some? ==> n == |FilteredMenus(data.value, searchQuery)|
    {
      if Filtered().Some? then |Filtered().value| else 0
    }

    /** The rows on the current page: matching menus only, at most one page of them. */
    function VisibleRows(): (r: seq<Menu>)
      reads this, pager
      ensures data.Some? ==> r == Window(FilteredMenus(data.value, searchQuery), pager.page, pager.rowsPerPage)
      ensures data.None? ==> r == []
      ensures |r| <= pager.rowsPerPage
      ensures forall m :: m in r ==> data.Some? && m in data.value && SearchHit(m, searchQuery)
    {
      if Filtered().Some? then pager.Visible(Filtered().value) else []
    }

    /** The fetch on mount: a successful response replaces the data, a failure keeps it. */
    method Loaded(response: Option<seq<Menu>>)
      modifies this
      ensures data == (if response.Some? then response else old(data))
      ensures open == old(open) && form == old(form) && searchQuery == old(searchQuery)
    {
      if response.Some? {
        data := response;
      }
    }

    /** `handleClickOpen(menu)`: the row's "Edit Stock" button. */
    method ClickOpen(m: Menu)
      modifies this
      ensures open && form == EditForm(m)
      ensures data == old(data) && searchQuery == old(searchQuery)
    {
      open := true;
      form := EditForm(m);
    }

    /** `handleClose`: the dialog closes and the draft is reset. */
    method Close()
      modifies this
      ensures !open && form == BlankForm()
      ensures data == old(data) && searchQuery == old(searchQuery)
    {
      open := false;
      form := BlankForm();
    }

    /** `handleChange` on the stock field: only the stock changes. */
    method ChangeStock(stock: int)
      modifies this
      ensures form == old(form).(menuStock := stock)
      ensures open == old(open) && data == old(data) && searchQuery == old(searchQuery)
    {
      form := form.(menuStock := stock);
    }

    /** `handleSubmit`: sends the update, re-fetches the menus if every call
        succeeded (`refetched`), and closes the dialog whether or not they did. */
    method Submit(actorId: string, refetched: Option<seq<Menu>>) returns (req: Request<StockPayload>)
      modifies this
      ensures req == SubmitRequest(old(form), actorId)
      ensures data == (if refetched.Some? then refetched else old(data))
      ensures !open && form == BlankForm()
      ensures searchQuery == old(searchQuery)
    {
      req := SubmitRequest(form, actorId);
      if refetched.Some? {
        data := refetched;
      }
      Close();
    }

    /** `handleSearch`: only the query changes; the page index is left where it was. */
    method Search(query: string)
      modifies this
      ensures searchQuery == query
      ensures data == old(data) && open == old(open) && form == old(form)
    {
      searchQuery := query;
    }
  }
}
