/** The Manage Reviews page: reviews filtered by their description, shown a
    page at a time, and edited through one dialog whose draft is `formData`.
    A draft field may be JavaScript's `undefined`, written None here: opening
    the dialog from the "Add Review" button hands the click event to
    `handleClickOpen`, and the event has none of a review's properties. */
module ManageReview {
  import opened Collections
  import opened Text
  import opened Pagination
  import opened Records

  const ReviewsUrl := "http://localhost:4000/api/reviews"

  /** `formData`; None in a field stands for `undefined`. */
  datatype ReviewForm = ReviewForm(
    id: Option<string>,
    accountId: Option<string>,
    menuId: Option<string>,
    reviewRate: Option<int>,
    reviewDesc: Option<string>)

  /** The draft the page starts with and that closing resets to. */
  function BlankForm(): (f: ReviewForm)
    ensures !IdIsSet(f.id) && f.id == None
    ensures f.accountId == Some("") && f.menuId == Some("")
    ensures f.reviewRate == Some(0) && f.reviewDesc == Some("")
  {
    ReviewForm(None, Some(""), Some(""), Some(0), Some(""))
  }

  /** The draft for editing `r`: its id and its four fields. */
  function EditForm(r: Review): (f: ReviewForm)
    ensures f.id == Some(r.id)
    ensures f.accountId == Some(r.accountId) && f.menuId == Some(r.menuId)
    ensures f.reviewRate == Some(r.reviewRate) && f.reviewDesc == Some(r.reviewDesc)
  {
    ReviewForm(Some(r.id), Some(r.accountId), Some(r.menuId), Some(r.reviewRate), Some(r.reviewDesc))
  }

  /** The draft the "Add Review" button produces: every property read from the
      click event is undefined, the id included. */
  function AddButtonForm(): (f: ReviewForm)
    ensures !IdIsSet(f.id) && f.id == None
    ensures f.accountId == None && f.menuId == None && f.reviewRate == None && f.reviewDesc == None
    ensures f != BlankForm()
  {
    ReviewForm(None, None, None, None, None)
  }

  /** The inputs of the dialog, all handled by `handleChange`. */
  datatype ReviewInput =
    | AccountInput(accountId: string)
    | MenuInput(menuId: string)
    | RateInput(rate: int)
    | DescInput(desc: string)

  /** One edit sets exactly the named field and leaves the others, and the id, alone. */
  function ApplyInput(f: ReviewForm, input: ReviewInput): (r: ReviewForm)
    ensures r.id == f.id
    ensures input.AccountInput? ==> r.accountId == Some(input.accountId) && r.(accountId := f.accountId) == f
    ensures input.MenuInput? ==> r.menuId == Some(input.menuId) && r.(menuId := f.menuId) == f
    ensures input.RateInput? ==> r.reviewRate == Some(input.rate) && r.(reviewRate := f.reviewRate) == f
    ensures input.DescInput? ==> r.reviewDesc == Some(input.desc) && r.(reviewDesc := f.reviewDesc) == f
  {
    match input
    case AccountInput(v) => f.(accountId := Some(v))
    case MenuInput(v) => f.(menuId := Some(v))
    case RateInput(v) => f.(reviewRate := Some(v))
    case DescInput(v) => f.(reviewDesc := Some(v))
  }

  /** `reviewData`: the four fields and never the id. A None field is a key
      JSON leaves out of the request body. */
  datatype ReviewPayload = ReviewPayload(
    accountId: Option<string>,
    menuId: Option<string>,
    reviewRate: Option<int>,
    reviewDesc: Option<string>)

  /** Submitting `f`: PUT to `/update/<id>` exactly when the id is set, POST
      to `/create` otherwise, carrying the draft's four fields. */
  function SubmitRequest(f: ReviewForm): (r: Request<ReviewPayload>)
    ensures r.Put? <==> IdIsSet(f.id)
    ensures r.Post? <==> !IdIsSet(f.id)
    ensures r.Put? ==> r.url == ReviewsUrl + "/update/" + f.id.value
    ensures r.Post? ==> r.url == ReviewsUrl + "/create"
    ensures r.body.accountId == f.accountId && r.body.menuId == f.menuId
    ensures r.body.reviewRate == f.reviewRate && r.body.reviewDesc == f.reviewDesc
  {
    var body := ReviewPayload(f.accountId, f.menuId, f.reviewRate, f.reviewDesc);
    if IdIsSet(f.id) then Put(ReviewsUrl + "/update/" + f.id.value, body)
    else Post(ReviewsUrl + "/create", body)
  }

  /** A dialog opened from "Add Review" is posted to `/create`, whatever is
      edited in it; fields left untouched are left out of the body. */
  lemma AddButtonCreates(inputs: seq<ReviewInput>)
    ensures SubmitRequest(FoldLeft(ApplyInput, AddButtonForm(), inputs)).Post?
    ensures SubmitRequest(FoldLeft(ApplyInput, AddButtonForm(), inputs)).url == ReviewsUrl + "/create"
  {
    FoldLeftPreserves(ApplyInput, (f: ReviewForm) => f.id == None, AddButtonForm(), inputs);
  }

  /** Opening a review and submitting it unchanged updates that review with its own four fields. */
  lemma EditThenSubmitUpdates(r: Review)
    requires r.id != ""
    ensures SubmitRequest(EditForm(r))
         == Put(ReviewsUrl + "/update/" + r.id,
                ReviewPayload(Some(r.accountId), Some(r.menuId), Some(r.reviewRate), Some(r.reviewDesc)))
  {
  }

  predicate SearchHit(v: Review, query: string) {
    MatchesQuery(v.reviewDesc, query)
  }

  /** `filteredData`: the reviews whose description contains the query, ignoring case. */
  function FilteredReviews(data: seq<Review>, query: string): (r: seq<Review>)
    ensures forall v :: v in r <==> v in data && MatchesQuery(v.reviewDesc, query)
    ensures |r| <= |data|
  {
    Filter(data, v => SearchHit(v, query))
  }

  /** The listed reviews keep the order they were fetched in. */
  lemma ReviewsKeepOrder(data: seq<Review>, query: string)
    ensures IsSubsequence(FilteredReviews(data, query), data)
  {
    FilterIsSubsequence(data, v => SearchHit(v, query));
  }

  /** An empty search box lists every review, unchanged. */
  lemma EmptyQueryListsAllReviews(data: seq<Review>)
    ensures FilteredReviews(data, "") == data
  {
    forall v | v in data ensures MatchesQuery(v.reviewDesc, "") {
      EmptyQueryMatches(v.reviewDesc);
    }
    FilterKeepsAll(data, v => SearchHit(v, ""));
  }

  /** The page's state, as the component's `useState` hooks hold it. */
  class ReviewsPage {
    var data: Option<seq<Review>>   // null until the first fetch succeeds
    var open: bool
    var form: ReviewForm
    var searchQuery: string
    const pager: Pager

    constructor ()
      ensures data == None && !open && form == BlankForm() && searchQuery == ""
      ensures fresh(pager) && pager.page == 0 && pager.rowsPerPage == 5
    {
      data := None;
      open := false;
      form := BlankForm();
      searchQuery := "";
      pager := new Pager();
    }

    /** `data?.filter(...)`: nothing until the reviews have been fetched. */
    function Filtered(): (r: Option<seq<Review>>)
      reads this
      ensures r.None? <==> data.None?
      ensures r.Some? ==> r.value == FilteredReviews(data.value, searchQuery)
    {
      match data
      case None => None
      case Some(reviews) => Some(FilteredReviews(reviews, searchQuery))
    }

    /** `count={filteredData?.length || 0}`. */
    function Count(): (n: nat)
      reads this
      ensures data.None? ==> n == 0
      ensures data.Some? ==> n == |FilteredReviews(data.value, searchQuery)|
    {
      if Filtered().Some? then |Filtered().value| else 0
    }

    /** The rows on the current page: matching reviews only, at most one page of them. */
    function VisibleRows(): (r: seq<Review>)
      reads this, pager
      ensures data.Some? ==> r == Window(FilteredReviews(data.value, searchQuery), pager.page, pager.rowsPerPage)
      ensures data.None? ==> r == []
      ensures |r| <= pager.rowsPerPage
      ensures forall v :: v in r ==> data.Some? && v in data.value && MatchesQuery(v.reviewDesc, searchQuery)
    {
      if Filtered().Some? then pager.Visible(Filtered().value) else []
    }

    /** The fetch on mount: a successful response replaces the data, a failure keeps it. */
    method Loaded(response: Option<seq<Review>>)
      modifies this
      ensures data == (if response.Some? then response else old(data))
      ensures open == old(open) && form == old(form) && searchQuery == old(searchQuery)
    {
      if response.Some? {
        data := response;
      }
    }

    /** `handleClickOpen`: a row's Edit button passes its review (Some); the
        "Add Review" button passes its click event (None). */
    method ClickOpen(record: Option<Review>)
      modifies this
      ensures open
      ensures record.Some? ==> form == EditForm(record.value)
      ensures record.None? ==> form == AddButtonForm()
      ensures data == old(data) && searchQuery == old(searchQuery)
    {
      open := true;
      if record.Some? {
        form := EditForm(record.value);
      } else {
        form := AddButtonForm();
      }
    }

    /** `handleClose`: the dialog closes and the draft is reset. */
    method Close()
      modifies this
      ensures !open && form == BlankForm()
      ensures data == old(data) && searchQuery == old(searchQuery)
    {
      open := false;
      form := BlankForm();
    }

    /** `handleChange`. */
    method Change(input: ReviewInput)
      modifies this
      ensures form == ApplyInput(old(form), input)
      ensures open == old(open) && data == old(data) && searchQuery == old(searchQuery)
    {
      form := ApplyInput(form, input);
    }

    /** `handleSubmit`: sends the draft, re-fetches the reviews if every call
        succeeded (`refetched`), and closes the dialog whether or not they did. */
    method Submit(refetched: Option<seq<Review>>) returns (req: Request<ReviewPayload>)
      modifies this
      ensures req == SubmitRequest(old(form))
      ensures data == (if refetched.Some? then refetched else old(data))
      ensures !open && form == BlankForm()
      ensures searchQuery == old(searchQuery)
    {
      req := SubmitRequest(form);
      if refetched.Some? {
        data := refetched;
      }
      Close();
    }

    /** `handleDelete(id)`: deletes the review and re-fetches. */
    method Delete(id: string, refetched: Option<seq<Review>>) returns (req: Request<()>)
      modifies this
      ensures req == Request.Delete(ReviewsUrl + "/" + id, ())
      ensures data == (if refetched.Some? then refetched else old(data))
      ensures open == old(open) && form == old(form) && searchQuery == old(searchQuery)
    {
      req := Request.Delete(ReviewsUrl + "/" + id, ());
      if refetched.Some? {
        data := refetched;
      }
    }

    /** `handleSearch`: only the query changes; the page index is left where it was. */
    method Search(query: string)
      modifies this
      ensures searchQuery == query
      ensures data == old(data) && open == old(open) && form == old(form)
    {
      searchQuery := query;
    }
  }
}
